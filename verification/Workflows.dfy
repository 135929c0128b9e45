// Declarative workflows: the validator (backend/app/workflows/definition.py) and
// the runner (backend/app/workflows/execution.py). A parameter is carried as
// `referenced_step` reads it.
module Workflows {
  import opened ParamSyntax
  import opened Wrappers

  const MAX_STEPS := 20

  datatype Step = Step(id: string, tool: string, params: map<string, Param>, optional: bool)

  datatype Workflow = Workflow(name: string, description: string, inputs: seq<string>, steps: seq<Step>)

  // -- validation ---------------------------------------------------------

  // Step ids this step's parameters depend on.
  ghost function References(step: Step): set<string> {
    set key | key in step.params && step.params[key].Reference? :: step.params[key].step
  }

  method ReferencesOf(step: Step) returns (found: set<string>)
    ensures found == References(step)
  {
    found := {};
    var keys := step.params.Keys;
    while keys != {}
      invariant keys <= step.params.Keys
      invariant found == set key | key in step.params.Keys - keys && step.params[key].Reference?
                             :: step.params[key].step
      decreases keys
    {
      var key :| key in keys;
      ghost var before := keys;
      keys := keys - {key};
      assert step.params.Keys - keys == (step.params.Keys - before) + {key};
      if step.params[key].Reference? {
        found := found + {step.params[key].step};
      }
    }
    assert step.params.Keys - keys == step.params.Keys;
  }

  ghost predicate IdBefore(steps: seq<Step>, i: nat, id: string) {
    exists j :: 0 <= j < i && j < |steps| && steps[j].id == id
  }

  // What the format promises: fresh step ids, and references only backwards.
  ghost predicate SoundStep(w: Workflow, i: nat)
    requires i < |w.steps|
  {
    && w.steps[i].id !in w.inputs && !IdBefore(w.steps, i, w.steps[i].id)
    && forall r :: r in References(w.steps[i]) ==> r in w.inputs || IdBefore(w.steps, i, r)
  }

  ghost predicate WellFormed(w: Workflow) {
    && w.description != "" && 1 <= |w.steps| <= MAX_STEPS
    && NameMatches(w.name)
    && (forall i :: 0 <= i < |w.inputs| ==> NameMatches(w.inputs[i]))
    && (forall i :: 0 <= i < |w.steps| ==> NameMatches(w.steps[i].id) && NameMatches(w.steps[i].tool))
    && (forall i :: 0 <= i < |w.steps| ==> SoundStep(w, i))
  }

  datatype Invalid =
    | NoDescription
    | WrongNumberOfSteps
    | BadName(name: string)
    | DuplicateId(id: string)
    | UnknownReferences(id: string, names: set<string>)

  // What an error says of the workflow it rejects. Of several faults any one is named.
  ghost predicate Explains(w: Workflow, error: Invalid) {
    match error
    case NoDescription => w.description == ""
    case WrongNumberOfSteps => !(1 <= |w.steps| <= MAX_STEPS)
    case BadName(name) =>
      && !NameMatches(name)
      && (name == w.name || name in w.inputs
          || exists i :: 0 <= i < |w.steps| && (w.steps[i].id == name || w.steps[i].tool == name))
    case _ => ExplainsStep(w, error)
  }

  ghost predicate ExplainsStep(w: Workflow, error: Invalid) {
    match error
    case DuplicateId(id) =>
      exists i :: 0 <= i < |w.steps| && w.steps[i].id == id && (id in w.inputs || IdBefore(w.steps, i, id))
    case UnknownReferences(id, names) =>
      exists i :: 0 <= i < |w.steps| && w.steps[i].id == id && Unknown(w, i, names)
    case _ => false
  }

  // The names, at least one, that step i references and nothing before it provides.
  ghost predicate Unknown(w: Workflow, i: nat, names: set<string>)
    requires i < |w.steps|
  {
    && names != {}
    && forall r :: r in names <==>
         r in References(w.steps[i]) && r !in w.inputs && !IdBefore(w.steps, i, r)
  }

  // A workflow is accepted exactly when it is well formed, and otherwise told a fault it has.
  method Validate(w: Workflow) returns (r: Option<Invalid>)
    ensures r.None? <==> WellFormed(w)
    ensures r.Some? ==> Explains(w, r.value)
  {
    if w.description == "" {
      return Some(NoDescription);
    }
    if !(1 <= |w.steps| <= MAX_STEPS) {
      return Some(WrongNumberOfSteps);
    }
    for i := 0 to |w.steps|
      invariant forall j :: 0 <= j < i ==> NameMatches(w.steps[j].id) && NameMatches(w.steps[j].tool)
    {
      if !NameMatches(w.steps[i].id) {
        return Some(BadName(w.steps[i].id));
      }
      if !NameMatches(w.steps[i].tool) {
        return Some(BadName(w.steps[i].tool));
      }
    }
    if !NameMatches(w.name) {
      return Some(BadName(w.name));
    }
    for i := 0 to |w.inputs|
      invariant forall j :: 0 <= j < i ==> NameMatches(w.inputs[j])
    {
      if !NameMatches(w.inputs[i]) {
        return Some(BadName(w.inputs[i]));
      }
    }
    r := ValidateSteps(w);
  }

  // The names a reference in step i may resolve to.
  ghost predicate Seen(w: Workflow, i: nat, seen: set<string>) {
    forall name :: name in seen <==> name in w.inputs || IdBefore(w.steps, i, name)
  }

  lemma StepVerdict(w: Workflow, i: nat, seen: set<string>)
    requires i < |w.steps| && Seen(w, i, seen)
    ensures SoundStep(w, i) <==> w.steps[i].id !in seen && References(w.steps[i]) <= seen
    ensures Seen(w, i + 1, seen + {w.steps[i].id})
  {
    forall name
      ensures IdBefore(w.steps, i + 1, name) <==> IdBefore(w.steps, i, name) || name == w.steps[i].id
    {
    }
  }

  method ValidateSteps(w: Workflow) returns (r: Option<Invalid>)
    ensures r.None? <==> forall i :: 0 <= i < |w.steps| ==> SoundStep(w, i)
    ensures r.Some? ==> ExplainsStep(w, r.value)
  {
    var seen := set name | name in w.inputs;
    for i := 0 to |w.steps|
      invariant Seen(w, i, seen)
      invariant forall j :: 0 <= j < i ==> SoundStep(w, j)
    {
      var step := w.steps[i];
      StepVerdict(w, i, seen);
      if step.id in seen {
        return Some(DuplicateId(step.id));
      }
      var references := ReferencesOf(step);
      if !(references <= seen) {
        assert Unknown(w, i, references - seen);
        return Some(UnknownReferences(step.id, references - seen));
      }
      seen := seen + {step.id};
    }
    r := None;
  }

  // -- running ------------------------------------------------------------

  datatype ToolOutcome = Ok | InvalidParams | Broken | TimedOut | NotFound

  datatype ToolResult = ToolResult(outcome: ToolOutcome, output: Value, error: Option<string>)

  datatype StepRecord = StepRecord(id: string, tool: string, outcome: ToolOutcome, error: Option<string>)

  // The run's summary, its outputs, and the parameters each tool was called with.
  datatype Run = Run(
    records: seq<StepRecord>,
    calls: seq<map<string, Value>>,
    outputs: map<string, Value>,
    failed: Option<string>)
  {
    predicate Completed() {
      failed.None?
    }
  }

  // A reference to something without an output resolves to null.
  function Source(outputs: map<string, Value>, param: Param): Value {
    match param
    case Literal(value) => value
    case Reference(step) => if step in outputs then outputs[step] else Null
  }

  ghost predicate Resolves(params: map<string, Param>, outputs: map<string, Value>, resolved: map<string, Value>) {
    resolved.Keys == params.Keys && forall key :: key in params ==> resolved[key] == Source(outputs, params[key])
  }

  method Resolve(step: Step, outputs: map<string, Value>) returns (resolved: map<string, Value>)
    ensures Resolves(step.params, outputs, resolved)
  {
    resolved := map[];
    var keys := step.params.Keys;
    while keys != {}
      invariant keys <= step.params.Keys && resolved.Keys == step.params.Keys - keys
      invariant forall key :: key in resolved ==> resolved[key] == Source(outputs, step.params[key])
      decreases keys
    {
      var key :| key in keys;
      resolved := resolved[key := Source(outputs, step.params[key])];
      keys := keys - {key};
    }
  }

  // The outputs available after i steps, the j-th of which gave results[j].
  function OutputsAfter(
    steps: seq<Step>, inputs: map<string, Value>, results: seq<ToolResult>, i: nat): map<string, Value>
    requires i <= |steps| <= |results|
  {
    if i == 0 then inputs
    else
      var before := OutputsAfter(steps, inputs, results, i - 1);
      if results[i - 1].outcome == Ok then before[steps[i - 1].id := results[i - 1].output] else before
  }

  predicate Continues(step: Step, result: ToolResult) {
    result.outcome == Ok || step.optional
  }

  // Step i was called on the outputs of the steps before it, and recorded.
  ghost predicate StepDone(
    steps: seq<Step>, inputs: map<string, Value>, results: seq<ToolResult>,
    records: seq<StepRecord>, calls: seq<map<string, Value>>, i: nat)
    requires i < |records| && i < |calls| && i < |steps| <= |results|
  {
    && records[i] == StepRecord(steps[i].id, steps[i].tool, results[i].outcome, results[i].error)
    && Resolves(steps[i].params, OutputsAfter(steps, inputs, results, i), calls[i])
  }

  ghost predicate ExecutedPrefix(
    steps: seq<Step>, inputs: map<string, Value>, results: seq<ToolResult>, run: Run, n: nat)
    requires n <= |steps| <= |results|
  {
    && |run.records| == |run.calls| == n
    && run.outputs == OutputsAfter(steps, inputs, results, n)
    && forall i :: 0 <= i < n ==> StepDone(steps, inputs, results, run.records, run.calls, i)
  }

  // A run executes a prefix of the steps. It stops at the first required step
  // that fails, and otherwise it completes.
  ghost predicate Executed(steps: seq<Step>, inputs: map<string, Value>, results: seq<ToolResult>, run: Run)
    requires |steps| <= |results|
  {
    var n := |run.records|;
    && n <= |steps| && ExecutedPrefix(steps, inputs, results, run, n)
    && (forall i :: 0 <= i < n - 1 ==> Continues(steps[i], results[i]))
    && if run.failed.None? then n == |steps| && forall i :: 0 <= i < n ==> Continues(steps[i], results[i])
       else n > 0 && run.failed == Some(steps[n - 1].id) && !Continues(steps[n - 1], results[n - 1])
  }

  // The run with step i's call and record added, and its output if it gave one.
  function Extended(run: Run, step: Step, params: map<string, Value>, result: ToolResult): Run {
    Run(run.records + [StepRecord(step.id, step.tool, result.outcome, result.error)],
        run.calls + [params],
        if result.outcome == Ok then run.outputs[step.id := result.output] else run.outputs,
        run.failed)
  }

  lemma PrefixGrows(
    steps: seq<Step>, inputs: map<string, Value>, results: seq<ToolResult>, run: Run, i: nat,
    params: map<string, Value>)
    requires i < |steps| <= |results| && ExecutedPrefix(steps, inputs, results, run, i)
    requires Resolves(steps[i].params, run.outputs, params)
    ensures ExecutedPrefix(steps, inputs, results, Extended(run, steps[i], params, results[i]), i + 1)
  {
    var longer := Extended(run, steps[i], params, results[i]);
    forall j | 0 <= j < i + 1
      ensures StepDone(steps, inputs, results, longer.records, longer.calls, j)
    {
      assert j < i ==> StepDone(steps, inputs, results, run.records, run.calls, j);
    }
  }

  // `run`, with what the tools will answer given in advance.
  method RunWorkflow(w: Workflow, inputs: map<string, Value>, results: seq<ToolResult>) returns (run: Run)
    requires |w.steps| <= |results|
    ensures Executed(w.steps, inputs, results, run)
  {
    var outputs := inputs;
    var records: seq<StepRecord> := [];
    var calls: seq<map<string, Value>> := [];
    for i := 0 to |w.steps|
      invariant ExecutedPrefix(w.steps, inputs, results, Run(records, calls, outputs, None), i)
      invariant forall j :: 0 <= j < i ==> Continues(w.steps[j], results[j])
    {
      var step, result := w.steps[i], results[i];
      var params := Resolve(step, outputs);
      PrefixGrows(w.steps, inputs, results, Run(records, calls, outputs, None), i, params);
      calls := calls + [params];
      records := records + [StepRecord(step.id, step.tool, result.outcome, result.error)];
      if result.outcome == Ok {
        outputs := outputs[step.id := result.output];
        continue;
      }
      if step.optional {
        continue;
      }
      StoppedRun(w.steps, inputs, results, Run(records, calls, outputs, None), i);
      return Run(records, calls, outputs, Some(step.id));
    }
    run := Run(records, calls, outputs, None);
  }

  lemma StoppedRun(steps: seq<Step>, inputs: map<string, Value>, results: seq<ToolResult>, run: Run, i: nat)
    requires i < |steps| <= |results| && ExecutedPrefix(steps, inputs, results, run, i + 1)
    requires forall j :: 0 <= j < i ==> Continues(steps[j], results[j])
    requires !Continues(steps[i], results[i])
    ensures Executed(steps, inputs, results, run.(failed := Some(steps[i].id)))
  {
  }

  // -- what validation buys -----------------------------------------------

  // What a name stands for before any step gives it an output.
  function Supplied(inputs: map<string, Value>, name: string): Option<Value> {
    if name in inputs then Some(inputs[name]) else None
  }

  ghost function Lookup(outputs: map<string, Value>, name: string): Option<Value> {
    if name in outputs then Some(outputs[name]) else None
  }

  // The step that defines a name, among the steps before i: its output if it succeeded, and
  // otherwise whatever the caller supplied under that name.
  lemma {:induction false} OutputOf(
    w: Workflow, inputs: map<string, Value>, results: seq<ToolResult>, i: nat, j: nat)
    requires WellFormed(w) && j < i <= |w.steps| <= |results|
    ensures Lookup(OutputsAfter(w.steps, inputs, results, i), w.steps[j].id) ==
            if results[j].outcome == Ok then Some(results[j].output) else Supplied(inputs, w.steps[j].id)
    decreases i
  {
    var id := w.steps[j].id;
    if i == j + 1 {
      assert SoundStep(w, j);
      SuppliedStays(w.steps, inputs, results, j, id);
    } else {
      OutputOf(w, inputs, results, i - 1, j);
      assert SoundStep(w, i - 1);
      assert w.steps[i - 1].id != id;
    }
  }

  lemma {:induction false} SuppliedStays(
    steps: seq<Step>, inputs: map<string, Value>, results: seq<ToolResult>, i: nat, name: string)
    requires i <= |steps| <= |results| && !IdBefore(steps, i, name)
    ensures Lookup(OutputsAfter(steps, inputs, results, i), name) == Supplied(inputs, name)
  {
    if i > 0 {
      SuppliedStays(steps, inputs, results, i - 1, name);
    }
  }

  // A name that step i references before anything has produced it.
  ghost predicate LacksAt(steps: seq<Step>, available: set<string>, name: string, i: nat)
    requires i < |steps|
  {
    name in References(steps[i]) && name !in available && !IdBefore(steps, i, name)
  }

  ghost predicate LacksSource(steps: seq<Step>, available: set<string>, name: string, n: nat)
    requires n <= |steps|
  {
    exists i :: 0 <= i < n && LacksAt(steps, available, name, i)
  }

  ghost predicate Produced(steps: seq<Step>, available: set<string>, produced: set<string>, i: nat) {
    forall name :: name in produced <==> name in available || IdBefore(steps, i, name)
  }

  ghost predicate Missing(steps: seq<Step>, available: set<string>, missing: set<string>, n: nat)
    requires n <= |steps|
  {
    forall name :: name in missing <==> LacksSource(steps, available, name, n)
  }

  method UnresolvedReferences(w: Workflow, available: set<string>) returns (missing: set<string>)
    ensures Missing(w.steps, available, missing, |w.steps|)
  {
    var produced := available;
    missing := {};
    for i := 0 to |w.steps|
      invariant Produced(w.steps, available, produced, i) && Missing(w.steps, available, missing, i)
    {
      var references := ReferencesOf(w.steps[i]);
      MissingGrows(w.steps, available, produced, missing, i);
      missing := missing + (references - produced);
      produced := produced + {w.steps[i].id};
    }
  }

  lemma MissingGrows(steps: seq<Step>, available: set<string>, produced: set<string>, missing: set<string>, i: nat)
    requires i < |steps| && Produced(steps, available, produced, i) && Missing(steps, available, missing, i)
    ensures Produced(steps, available, produced + {steps[i].id}, i + 1)
    ensures Missing(steps, available, missing + (References(steps[i]) - produced), i + 1)
  {
    forall name
      ensures IdBefore(steps, i + 1, name) <==> IdBefore(steps, i, name) || name == steps[i].id
      ensures LacksSource(steps, available, name, i + 1) <==>
                LacksSource(steps, available, name, i) || LacksAt(steps, available, name, i)
    {
      if LacksSource(steps, available, name, i) {
        var k :| 0 <= k < i && LacksAt(steps, available, name, k);
        assert 0 <= k < i + 1;
      }
    }
  }

  ghost predicate Referenced(steps: seq<Step>, name: string) {
    exists i :: 0 <= i < |steps| && name in References(steps[i])
  }

  // For a valid workflow these are exactly the declared inputs that are
  // referenced and not supplied.
  lemma UnresolvedAreMissingInputs(w: Workflow, available: set<string>, name: string)
    requires WellFormed(w)
    ensures LacksSource(w.steps, available, name, |w.steps|) <==>
              name in w.inputs && name !in available && Referenced(w.steps, name)
  {
    if LacksSource(w.steps, available, name, |w.steps|) {
      var i :| 0 <= i < |w.steps| && LacksAt(w.steps, available, name, i);
      assert SoundStep(w, i);
    }
    if name in w.inputs && name !in available && Referenced(w.steps, name) {
      var i :| 0 <= i < |w.steps| && name in References(w.steps[i]);
      InputIsNoStep(w, name, i);
      assert LacksAt(w.steps, available, name, i);
    }
  }

  lemma InputIsNoStep(w: Workflow, name: string, i: nat)
    requires WellFormed(w) && name in w.inputs
    ensures !IdBefore(w.steps, i, name)
  {
    forall j | 0 <= j < |w.steps|
      ensures w.steps[j].id != name
    {
      assert SoundStep(w, j);
    }
  }

  // In a run of a valid workflow, on any inputs, what a reference passes to its tool is the
  // output of the one earlier step of that name, if there is one and it succeeded; after an
  // optional step that failed, and where no step has the name, it is what the caller supplied
  // under it, or null.
  lemma ReferencesMeanWhatTheyName(
    w: Workflow, inputs: map<string, Value>, results: seq<ToolResult>, run: Run, i: nat, key: string)
    requires WellFormed(w) && |w.steps| <= |results| && Executed(w.steps, inputs, results, run)
    requires i < |run.records| && key in w.steps[i].params && w.steps[i].params[key].Reference?
    ensures key in run.calls[i]
    ensures var name := w.steps[i].params[key].step;
            if IdBefore(w.steps, i, name)
            then exists j :: 0 <= j < i && w.steps[j].id == name &&
                   Passes(w.steps[j], results[j], Supplied(inputs, name), run.calls[i][key])
            else run.calls[i][key] == OrNull(Supplied(inputs, name))
  {
    var name := w.steps[i].params[key].step;
    assert StepDone(w.steps, inputs, results, run.records, run.calls, i);
    if IdBefore(w.steps, i, name) {
      var j :| 0 <= j < i && w.steps[j].id == name;
      OutputOf(w, inputs, results, i, j);
      assert Passes(w.steps[j], results[j], Supplied(inputs, name), run.calls[i][key]);
    } else {
      SuppliedStays(w.steps, inputs, results, i, name);
    }
  }

  // A literal reaches the tool as it was written, whatever the run made before it.
  lemma LiteralsReachTheTool(
    w: Workflow, inputs: map<string, Value>, results: seq<ToolResult>, run: Run, i: nat, key: string)
    requires |w.steps| <= |results| && Executed(w.steps, inputs, results, run)
    requires i < |run.records| && key in w.steps[i].params && w.steps[i].params[key].Literal?
    ensures key in run.calls[i] && run.calls[i][key] == w.steps[i].params[key].value
  {
    assert StepDone(w.steps, inputs, results, run.records, run.calls, i);
  }

  // Every run is recorded step by step up to the first required step that fails, and no further.
  lemma StopsAtFirstFailure(w: Workflow, inputs: map<string, Value>, results: seq<ToolResult>, run: Run, i: nat)
    requires |w.steps| <= |results| && Executed(w.steps, inputs, results, run) && i < |w.steps|
    ensures i < |run.records| <==>
            forall j :: 0 <= j < i ==> results[j].outcome == Ok || w.steps[j].optional
    ensures i < |run.records| ==>
              && run.records[i].id == w.steps[i].id && run.records[i].tool == w.steps[i].tool
              && run.records[i].outcome == results[i].outcome && run.records[i].error == results[i].error
    ensures run.failed == Some(w.steps[i].id) && i == |run.records| - 1 ==>
              results[i].outcome != Ok && !w.steps[i].optional
    ensures run.failed.None? ==> |run.records| == |w.steps|
  {
    var n := |run.records|;
    if i < n {
      assert StepDone(w.steps, inputs, results, run.records, run.calls, i);
      forall j | 0 <= j < i
        ensures results[j].outcome == Ok || w.steps[j].optional
      {
        assert Continues(w.steps[j], results[j]);
      }
    } else {
      assert !Continues(w.steps[n - 1], results[n - 1]);
    }
  }

  function OrNull(value: Option<Value>): Value {
    if value.Some? then value.value else Null
  }

  ghost predicate Passes(step: Step, result: ToolResult, supplied: Option<Value>, value: Value) {
    if result.outcome == Ok then value == result.output else step.optional && value == OrNull(supplied)
  }

  // Run on inputs that lack nothing, every reference has an input or an earlier step to name.
  lemma NothingLackedHasASource(w: Workflow, available: set<string>, i: nat, name: string)
    requires forall missing :: !LacksSource(w.steps, available, missing, |w.steps|)
    requires i < |w.steps| && name in References(w.steps[i])
    ensures name in available || IdBefore(w.steps, i, name)
  {
    assert !LacksSource(w.steps, available, name, |w.steps|);
    assert !LacksAt(w.steps, available, name, i);
  }

  // A valid workflow run with exactly its declared inputs lacks nothing, and no input bears the
  // name of a step: after an optional step that failed, a reference to it passes null.
  lemma DeclaredInputsSuffice(w: Workflow, inputs: map<string, Value>)
    requires WellFormed(w) && inputs.Keys == set name | name in w.inputs
    ensures forall name :: name in inputs ==> !IdBefore(w.steps, |w.steps|, name)
    ensures forall name :: !LacksSource(w.steps, inputs.Keys, name, |w.steps|)
  {
    forall name
      ensures name in inputs ==> !IdBefore(w.steps, |w.steps|, name)
      ensures !LacksSource(w.steps, inputs.Keys, name, |w.steps|)
    {
      UnresolvedAreMissingInputs(w, inputs.Keys, name);
      if name in inputs {
        InputIsNoStep(w, name, |w.steps|);
      }
    }
  }

  // The outputs of a run are the inputs and the successful steps, nothing else.
  lemma {:induction false} OutputNames(
    steps: seq<Step>, inputs: map<string, Value>, results: seq<ToolResult>, i: nat, name: string)
    requires i <= |steps| <= |results|
    ensures name in OutputsAfter(steps, inputs, results, i) <==>
              name in inputs || exists j :: 0 <= j < i && steps[j].id == name && results[j].outcome == Ok
  {
    if i > 0 {
      OutputNames(steps, inputs, results, i - 1, name);
    }
  }
}
