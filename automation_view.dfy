/** The workflow form of the desktop renderer (src/renderer/src/views/Automation.js):
    the state updaters of its step list, the form check before submitting, the cleaning
    of the submitted steps and the step labels. Each updater maps the previous form
    state to the next, as a React state updater does. */
module AutomationView {
  import opened Common
  import Playwright

  /** A step of `formData.steps`: the browser step plus the editing flags
      `_parametersError` (false when absent) and `_parametersText`. */
  datatype FormStep = FormStep(stepType: string, parameters: Json, parametersError: bool, parametersText: Option<string>)

  /** `formData` */
  datatype FormData = FormData(name: string, description: string, profileId: string, steps: seq<FormStep>)

  /** The steps with positions `i` and `j` exchanged through a temporary. */
  function Swapped<T>(s: seq<T>, i: nat, j: nat): (r: seq<T>)
    requires i < |s| && j < |s|
    ensures |r| == |s| && r[i] == s[j] && r[j] == s[i]
    ensures forall k :: 0 <= k < |s| && k != i && k != j ==> r[k] == s[k]
    ensures multiset(r) == multiset(s)
  {
    var temp := s[i];
    s[i := s[j]][j := temp]
  }

  // ---------------------------------------------------------------------------
  // Changing one step

  /** The parameters handleStepTypeChange gives a step of each type: an object, empty
      for a type the switch has no case for (`extract` among them). */
  function DefaultParams(stepType: string): (p: Json)
    ensures p.JObj?
    ensures p.fields.Keys == {} <==> stepType !in {"navigate", "click", "type", "screenshot", "wait"}
    ensures forall k :: k in p.fields ==> (if k == "milliseconds" then p.fields[k].JNum? else p.fields[k].JStr?)
  {
    match stepType
    case "navigate" => Object("url", JStr("https://example.com"), map[])
    case "click" => Object("selector", JStr("#button"), map[])
    case "type" => Object("selector", JStr("#input"), map["text" := JStr("Example text")])
    case "screenshot" => Object("filename", JStr("screenshot.png"), map[])
    case "wait" => Object("milliseconds", JNum(1000), map[])
    case _ => JObj(map[])
  }

  /** An object literal with the key `k` and the other fields `rest`. */
  function Object(k: string, v: Json, rest: map<string, Json>): (p: Json)
    ensures p.JObj? && k in p.fields.Keys && p.fields[k] == v
  {
    JObj(rest[k := v])
  }

  /** handleStepTypeChange(index, value): step `index` becomes a fresh step of the new
      type with its default parameters, without any editing flag. */
  function HandleStepTypeChange(data: FormData, index: nat, value: string): (r: FormData)
    requires index < |data.steps|
    ensures r.name == data.name && r.description == data.description && r.profileId == data.profileId
    ensures |r.steps| == |data.steps|
    ensures forall j :: 0 <= j < |data.steps| && j != index ==> r.steps[j] == data.steps[j]
    ensures r.steps[index].stepType == value && r.steps[index].parameters == DefaultParams(value)
    ensures !r.steps[index].parametersError && r.steps[index].parametersText == None
  {
    data.(steps := data.steps[index := FormStep(value, DefaultParams(value), false, None)])
  }

  /** handleStepParametersChange(index, value) as written; `parsed` is what `JSON.parse`
      makes of `value`, None when it throws. A parse that succeeds replaces the
      parameters and keeps the other fields of the step, the error flag included. */
  function HandleStepParametersChangeAsWritten(data: FormData, index: nat, value: string, parsed: Option<Json>): (r: FormData)
    requires index < |data.steps|
    ensures r.name == data.name && r.description == data.description && r.profileId == data.profileId
    ensures |r.steps| == |data.steps|
    ensures forall j :: 0 <= j < |data.steps| && j != index ==> r.steps[j] == data.steps[j]
    ensures r.steps[index].stepType == data.steps[index].stepType
    ensures parsed.Some? ==> r.steps[index] == data.steps[index].(parameters := parsed.value)
    ensures parsed.None? ==> r.steps[index] == data.steps[index].(parametersError := true, parametersText := Some(value))
  {
    var step := data.steps[index];
    var next := if parsed.Some? then step.(parameters := parsed.value)
                else step.(parametersError := true, parametersText := Some(value));
    data.(steps := data.steps[index := next])
  }

  /** The same handler with a successful parse also clearing `_parametersError` and
      `_parametersText`, so that the step can be submitted again. */
  function HandleStepParametersChange(data: FormData, index: nat, value: string, parsed: Option<Json>): (r: FormData)
    requires index < |data.steps|
    ensures r.name == data.name && r.description == data.description && r.profileId == data.profileId
    ensures |r.steps| == |data.steps|
    ensures forall j :: 0 <= j < |data.steps| && j != index ==> r.steps[j] == data.steps[j]
    ensures r.steps[index].stepType == data.steps[index].stepType
    ensures parsed.Some? ==> r.steps[index] == FormStep(data.steps[index].stepType, parsed.value, false, None)
    ensures parsed.None? ==> r.steps[index] == data.steps[index].(parametersError := true, parametersText := Some(value))
  {
    var step := data.steps[index];
    var next := if parsed.Some? then FormStep(step.stepType, parsed.value, false, None)
                else step.(parametersError := true, parametersText := Some(value));
    data.(steps := data.steps[index := next])
  }

  // ---------------------------------------------------------------------------
  // The list edits

  const NewStep: FormStep := FormStep("navigate", JObj(map["url" := JStr("https://example.com")]), false, None)

  /** addStep */
  function AddStep(data: FormData): (r: FormData)
    ensures r.name == data.name && r.description == data.description && r.profileId == data.profileId
    ensures |r.steps| == |data.steps| + 1 && r.steps[..|data.steps|] == data.steps
    ensures r.steps[|data.steps|] == NewStep
  {
    data.(steps := data.steps + [NewStep])
  }

  /** removeStep(index), that is `splice(index, 1)` on a copy. */
  function RemoveStep(data: FormData, index: int): (r: FormData)
    ensures r.name == data.name && r.description == data.description && r.profileId == data.profileId
    ensures 0 <= index < |data.steps| ==> r.steps == data.steps[..index] + data.steps[index + 1..]
  {
    data.(steps := Splice(data.steps, index, 1, []))
  }

  /** Removing the step just added gives the form back. */
  lemma RemoveAddedStep(data: FormData)
    ensures RemoveStep(AddStep(data), |data.steps|) == data
  {
    assert AddStep(data).steps[..|data.steps|] == data.steps;
  }

  /** removeStep removes the one step at the index and keeps the order of the others. */
  lemma RemoveStepRemovesOne(data: FormData, index: nat)
    requires index < |data.steps|
    ensures var r := RemoveStep(data, index).steps;
            |r| == |data.steps| - 1 &&
            (forall j :: 0 <= j < index ==> r[j] == data.steps[j]) &&
            (forall j :: index <= j < |r| ==> r[j] == data.steps[j + 1]) &&
            multiset(r) + multiset{data.steps[index]} == multiset(data.steps)
  {
    SpliceRemoveAt(data.steps, index);
  }

  /** moveStepUp(index): the first step stays where it is, any other changes places with
      the step before it. */
  function MoveStepUp(data: FormData, index: nat): (r: FormData)
    requires index < |data.steps|
    ensures r.name == data.name && r.description == data.description && r.profileId == data.profileId
    ensures multiset(r.steps) == multiset(data.steps)
    ensures index == 0 ==> r == data
    ensures index > 0 ==> r.steps == Swapped(data.steps, index, index - 1)
  {
    if index == 0 then data
    else data.(steps := Swapped(data.steps, index, index - 1))
  }

  /** moveStepDown(index): the last step stays where it is, any other changes places
      with the step after it. */
  function MoveStepDown(data: FormData, index: nat): (r: FormData)
    requires index < |data.steps|
    ensures r.name == data.name && r.description == data.description && r.profileId == data.profileId
    ensures multiset(r.steps) == multiset(data.steps)
    ensures index == |data.steps| - 1 ==> r == data
    ensures index < |data.steps| - 1 ==> r.steps == Swapped(data.steps, index, index + 1)
  {
    if index == |data.steps| - 1 then data
    else data.(steps := Swapped(data.steps, index, index + 1))
  }

  /** Moving a step up and then down again restores the form. */
  lemma MoveUpThenDown(data: FormData, index: nat)
    requires 0 < index < |data.steps|
    ensures MoveStepDown(MoveStepUp(data, index), index - 1) == data
  {
    var up := MoveStepUp(data, index);
    assert MoveStepDown(up, index - 1).steps == data.steps;
  }

  /** Moving a step down and then up again restores the form. */
  lemma MoveDownThenUp(data: FormData, index: nat)
    requires index + 1 < |data.steps|
    ensures MoveStepUp(MoveStepDown(data, index), index + 1) == data
  {
    var down := MoveStepDown(data, index);
    assert MoveStepUp(down, index + 1).steps == data.steps;
  }

  // ---------------------------------------------------------------------------
  // Submitting

  predicate Flagged(step: FormStep) {
    step.parametersError
  }

  /** `formData.steps.some(step => step._parametersError)` */
  predicate AnyFlagged(steps: seq<FormStep>) {
    exists j :: 0 <= j < |steps| && Flagged(steps[j])
  }

  /** validateForm: the alert it shows, in the order of its checks, or Ok. */
  function ValidateForm(data: FormData): (r: Result<bool, string>)
    ensures r.Ok? <==> ((forall j :: 0 <= j < |data.steps| ==> !Flagged(data.steps[j])) &&
                        data.name != "" && data.profileId != "" && |data.steps| > 0)
    ensures (exists j :: 0 <= j < |data.steps| && Flagged(data.steps[j])) ==>
              r == Err("Some step parameters have invalid JSON. Please fix before submitting.")
    ensures (forall j :: 0 <= j < |data.steps| ==> !Flagged(data.steps[j])) && data.name == "" ==>
              r == Err("Workflow name is required.")
    ensures (forall j :: 0 <= j < |data.steps| ==> !Flagged(data.steps[j])) && data.name != "" && data.profileId == "" ==>
              r == Err("Please select a profile to use for this workflow.")
    ensures (forall j :: 0 <= j < |data.steps| ==> !Flagged(data.steps[j])) && data.name != "" && data.profileId != "" && data.steps == [] ==>
              r == Err("At least one workflow step is required.")
  {
    if AnyFlagged(data.steps) then
      Err("Some step parameters have invalid JSON. Please fix before submitting.")
    else if data.name == "" then Err("Workflow name is required.")
    else if data.profileId == "" then Err("Please select a profile to use for this workflow.")
    else if |data.steps| == 0 then Err("At least one workflow step is required.")
    else Ok(true)
  }

  /** The steps handleSubmit sends: each step's type and parameters only. */
  function CleanSteps(steps: seq<FormStep>): (r: seq<Playwright.Step>)
    ensures |r| == |steps|
    ensures forall j :: 0 <= j < |steps| ==> r[j] == Playwright.Step(steps[j].stepType, steps[j].parameters)
  {
    seq(|steps|, j requires 0 <= j < |steps| => Playwright.Step(steps[j].stepType, steps[j].parameters))
  }

  /** A parameter text that does not parse changes nothing that is submitted. */
  lemma FailedParseKeepsSubmission(data: FormData, index: nat, value: string)
    requires index < |data.steps|
    ensures CleanSteps(HandleStepParametersChange(data, index, value, None).steps) == CleanSteps(data.steps)
    ensures ValidateForm(HandleStepParametersChange(data, index, value, None)).Err?
  {
    var r := HandleStepParametersChange(data, index, value, None);
    assert Flagged(r.steps[index]);
  }

  /** Reordering the steps reorders what is submitted in the same way. */
  lemma CleanStepsOfSwap(steps: seq<FormStep>, i: nat, j: nat)
    requires i < |steps| && j < |steps|
    ensures CleanSteps(Swapped(steps, i, j)) == Swapped(CleanSteps(steps), i, j)
  {
  }

  // ---------------------------------------------------------------------------
  // The parameter error flag

  /** As written, a step whose parameter text once failed to parse stays flagged after
      any later text that parses, so the form can no longer be submitted. */
  lemma FlagSticksAsWritten(data: FormData, index: nat, bad: string, good: string, p: Json)
    requires index < |data.steps|
    ensures var failed := HandleStepParametersChangeAsWritten(data, index, bad, None);
            var fixed := HandleStepParametersChangeAsWritten(failed, index, good, Some(p));
            Flagged(fixed.steps[index]) && fixed.steps[index].parameters == p &&
            fixed.steps[index].parametersText == Some(bad) &&
            ValidateForm(fixed) == Err("Some step parameters have invalid JSON. Please fix before submitting.")
  {
    var failed := HandleStepParametersChangeAsWritten(data, index, bad, None);
    var fixed := HandleStepParametersChangeAsWritten(failed, index, good, Some(p));
    assert Flagged(fixed.steps[index]);
  }

  /** With the corrected handler, text that parses after a failure leaves the form as
      if the failure had not happened, apart from the new parameters. */
  lemma ParseAfterFailureClears(data: FormData, index: nat, bad: string, good: string, p: Json)
    requires index < |data.steps| && !Flagged(data.steps[index])
    ensures var failed := HandleStepParametersChange(data, index, bad, None);
            var fixed := HandleStepParametersChange(failed, index, good, Some(p));
            fixed == HandleStepParametersChange(data, index, good, Some(p)) &&
            ValidateForm(fixed) == ValidateForm(data)
  {
    var failed := HandleStepParametersChange(data, index, bad, None);
    var fixed := HandleStepParametersChange(failed, index, good, Some(p));
    var direct := HandleStepParametersChange(data, index, good, Some(p));
    assert fixed.steps == direct.steps by {
      assert forall j :: 0 <= j < |data.steps| ==> fixed.steps[j] == direct.steps[j];
    }
    SameFlagsSameValidation(data, direct);
  }

  /** Forms that differ only in the contents of unflagged steps validate alike. */
  lemma SameFlagsSameValidation(a: FormData, b: FormData)
    requires a.name == b.name && a.profileId == b.profileId && |a.steps| == |b.steps|
    requires forall j :: 0 <= j < |a.steps| ==> (Flagged(a.steps[j]) <==> Flagged(b.steps[j]))
    ensures ValidateForm(a) == ValidateForm(b)
  {
    assert AnyFlagged(a.steps) == AnyFlagged(b.steps) by {
      if AnyFlagged(a.steps) {
        var j :| 0 <= j < |a.steps| && Flagged(a.steps[j]);
        assert Flagged(b.steps[j]);
      }
      if AnyFlagged(b.steps) {
        var j :| 0 <= j < |b.steps| && Flagged(b.steps[j]);
        assert Flagged(a.steps[j]);
      }
    }
  }

  /** Choosing a type again clears the error flag of the step. */
  lemma TypeChangeClearsFlag(data: FormData, index: nat, value: string)
    requires index < |data.steps|
    requires forall j :: 0 <= j < |data.steps| && j != index ==> !Flagged(data.steps[j])
    requires data.name != "" && data.profileId != ""
    ensures ValidateForm(HandleStepTypeChange(data, index, value)) == Ok(true)
  {
    var r := HandleStepTypeChange(data, index, value);
    assert forall j :: 0 <= j < |r.steps| ==> !Flagged(r.steps[j]);
  }

  // ---------------------------------------------------------------------------
  // Labels

  /** getStepTypeLabel */
  function GetStepTypeLabel(stepType: string): (text: string)
    ensures Playwright.IsKnownType(stepType) ==> text != stepType
    ensures !Playwright.IsKnownType(stepType) ==> text == stepType
  {
    match stepType
    case "navigate" => "Navigate to URL"
    case "click" => "Click Element"
    case "type" => "Type Text"
    case "screenshot" => "Take Screenshot"
    case "wait" => "Wait"
    case "extract" => "Extract Data"
    case _ => stepType
  }

  /** The six step types have six different labels. */
  lemma LabelsDiffer(a: string, b: string)
    requires Playwright.IsKnownType(a) && Playwright.IsKnownType(b) && a != b
    ensures GetStepTypeLabel(a) != GetStepTypeLabel(b)
  {
  }
}
