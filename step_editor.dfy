/** The block editor of the web page (public/js/automation.js): the per-type parameter
    forms with their generators and validators, and the edits the page makes to the
    steps of the workflow it shows. */
module StepEditor {
  import opened Common
  import JsText

  /** A parameter value as the page stores it: the text of a form field, or the number
      the wait form and the drop defaults put in `seconds`. */
  datatype Value = Text(s: string) | Number(n: JsText.NumValue)

  type Params = map<string, Value>

  /** A step of `currentWorkflow.steps`. */
  datatype EditorStep = EditorStep(id: string, stepType: string, parameters: Params)

  /** The keys of `stepTypeConfigs`. */
  datatype StepKind = Navigate | Click | TypeText | Wait | Screenshot | Extract

  function KindOf(t: string): (k: Option<StepKind>)
    ensures k.Some? <==> t in {"navigate", "click", "type", "wait", "screenshot", "extract"}
  {
    match t
    case "navigate" => Some(Navigate)
    case "click" => Some(Click)
    case "type" => Some(TypeText)
    case "wait" => Some(Wait)
    case "screenshot" => Some(Screenshot)
    case "extract" => Some(Extract)
    case _ => None
  }

  // ---------------------------------------------------------------------------
  // The parameter forms

  /** The values of the inputs of the open form, by element id; an input the form does
      not have reads as the empty text. */
  type Form = map<string, string>

  function Field(form: Form, key: string): string {
    if key in form then form[key] else ""
  }

  /** `!!params[key] && params[key].trim().length > 0` */
  predicate Filled(p: Params, key: string) {
    key in p && p[key].Text? && NonBlank(p[key].s)
  }

  /** `params[key] > 0`, with JavaScript's comparison of a text or a missing value with 0. */
  predicate Positive(p: Params, key: string) {
    key in p &&
    match p[key]
    case Number(n) => n.Num? && n.v > 0
    case Text(s) => JsText.ToNumber(s).Num? && JsText.ToNumber(s).v > 0
  }

  /** The parameters each validator cannot do without. */
  function Required(kind: StepKind): set<string> {
    match kind
    case Navigate => {"url"}
    case Click => {"selector"}
    case TypeText => {"selector", "text"}
    case Wait => {"seconds"}
    case Screenshot => {"filename"}
    case Extract => {"selector", "variableName"}
  }

  /** `validateParams` of each configuration. */
  predicate Validate(kind: StepKind, p: Params)
    ensures Validate(kind, p) ==> Required(kind) <= p.Keys
  {
    match kind
    case Navigate => Filled(p, "url")
    case Click => Filled(p, "selector")
    case TypeText => Filled(p, "selector") && Filled(p, "text")
    case Wait => ("selector" !in p || Filled(p, "selector")) && Positive(p, "seconds")
    case Screenshot => Filled(p, "filename")
    case Extract => Filled(p, "selector") && Filled(p, "variableName")
  }

  /** The field under `key` when its text is not blank, as the optional fields are kept. */
  function Optional(form: Form, key: string): (p: Params)
    ensures key in p <==> NonBlank(Field(form, key))
    ensures key in p ==> p[key] == Text(Field(form, key))
    ensures p.Keys <= {key}
  {
    if NonBlank(Field(form, key)) then map[key := Text(Field(form, key))] else map[]
  }

  /** The `seconds` the wait form produces: `parseInt` of a numeric text, 5 otherwise. */
  function WaitSeconds(text: string): (n: JsText.NumValue)
    ensures text != [] && JsText.AllDigits(text) ==> n == JsText.Num(JsText.DigitsValue(text))
    ensures text == "" || JsText.IsNaN(text) ==> n == JsText.Num(5)
  {
    JsText.ToNumberOfDigits(text);
    if text != "" && !JsText.IsNaN(text) then JsText.ParseInt(text) else JsText.Num(5)
  }

  /** `generateParams` of each configuration, reading the form's inputs. */
  function Generate(kind: StepKind, form: Form): (p: Params)
    ensures kind == Wait ==> "seconds" in p && p["seconds"] == Number(WaitSeconds(Field(form, "seconds")))
  {
    match kind
    case Navigate => map["url" := Text(Field(form, "url"))]
    case Click => map["selector" := Text(Field(form, "selector"))]
    case TypeText => map["selector" := Text(Field(form, "selector")), "text" := Text(Field(form, "text"))]
    case Wait => Optional(form, "selector")["seconds" := Number(WaitSeconds(Field(form, "seconds")))]
    case Screenshot => Optional(form, "selector")["filename" := Text(Field(form, "filename"))]
    case Extract =>
      Optional(form, "attribute")["selector" := Text(Field(form, "selector"))]["variableName" := Text(Field(form, "variableName"))]
  }

  // What each validator demands of the inputs of its form: the required fields are not
  // blank, and the wait form only needs a positive number of seconds, because a blank
  // selector is left out and a text that is not a number becomes 5.

  lemma NavigateFormValid(form: Form)
    ensures Validate(Navigate, Generate(Navigate, form)) <==> NonBlank(Field(form, "url"))
  {
  }

  lemma ClickFormValid(form: Form)
    ensures Validate(Click, Generate(Click, form)) <==> NonBlank(Field(form, "selector"))
  {
  }

  lemma TypeFormValid(form: Form)
    ensures Validate(TypeText, Generate(TypeText, form)) <==> NonBlank(Field(form, "selector")) && NonBlank(Field(form, "text"))
  {
    var p := Generate(TypeText, form);
    assert p["selector"] == Text(Field(form, "selector")) && p["text"] == Text(Field(form, "text"));
  }

  lemma WaitFormValid(form: Form)
    ensures Validate(Wait, Generate(Wait, form)) <==> var n := WaitSeconds(Field(form, "seconds")); n.Num? && n.v > 0
  {
    var n := WaitSeconds(Field(form, "seconds"));
    var p := Generate(Wait, form);
    assert "selector" !in p || Filled(p, "selector") by {
      var o := Optional(form, "selector");
      assert "selector" in p ==> "selector" in o && p["selector"] == o["selector"];
    }
    assert Positive(p, "seconds") <==> n.Num? && n.v > 0 by {
      PositiveNumber(p, "seconds", n);
    }
  }

  lemma PositiveNumber(p: Params, key: string, n: JsText.NumValue)
    requires key in p && p[key] == Number(n)
    ensures Positive(p, key) <==> n.Num? && n.v > 0
  {
  }

  lemma ScreenshotFormValid(form: Form)
    ensures Validate(Screenshot, Generate(Screenshot, form)) <==> NonBlank(Field(form, "filename"))
  {
  }

  lemma ExtractFormValid(form: Form)
    ensures Validate(Extract, Generate(Extract, form)) <==> NonBlank(Field(form, "selector")) && NonBlank(Field(form, "variableName"))
  {
    var p := Generate(Extract, form);
    var sel, name := Field(form, "selector"), Field(form, "variableName");
    assert p == Optional(form, "attribute")["selector" := Text(sel)]["variableName" := Text(name)];
    assert "selector" in p && p["selector"] == Text(sel);
    assert "variableName" in p && p["variableName"] == Text(name);
    assert Filled(p, "selector") == NonBlank(sel);
    assert Filled(p, "variableName") == NonBlank(name);
  }

  /** The wait form keeps the selector exactly when it is not blank, and a seconds text
      that is empty or not a number becomes 5. */
  lemma WaitFormDefaults(form: Form)
    ensures var p := Generate(Wait, form);
            ("selector" in p <==> NonBlank(Field(form, "selector"))) &&
            ("selector" in p ==> p["selector"] == Text(Field(form, "selector"))) &&
            (Field(form, "seconds") == "" || JsText.IsNaN(Field(form, "seconds")) ==> p["seconds"] == Number(JsText.Num(5)))
  {
    var o := Optional(form, "selector");
    assert "selector" in Generate(Wait, form) <==> "selector" in o;
  }

  // ---------------------------------------------------------------------------
  // New steps dropped from the sidebar

  /** `s.replace(/[:.]/g, '_')` */
  function Underscored(s: string): (r: string)
    ensures |r| == |s|
    ensures forall k :: 0 <= k < |r| ==> r[k] == (if s[k] == ':' || s[k] == '.' then '_' else s[k])
    ensures forall k :: 0 <= k < |r| ==> r[k] != ':' && r[k] != '.'
  {
    seq(|s|, k requires 0 <= k < |s| => if s[k] == ':' || s[k] == '.' then '_' else s[k])
  }

  /** The blank parameters of a step dropped from the sidebar; `isoNow` is the drop
      time as `toISOString` writes it. */
  function DropDefaults(kind: StepKind, isoNow: string): (p: Params)
    ensures Required(kind) <= p.Keys
    ensures kind == Screenshot ==>
              p["filename"].Text? && StartsWith(p["filename"].s, "screenshot_") &&
              forall k :: |"screenshot_"| <= k < |p["filename"].s| ==> p["filename"].s[k] != ':' && p["filename"].s[k] != '.'
  {
    match kind
    case Navigate => map["url" := Text("")]
    case Click => map["selector" := Text("")]
    case TypeText => map["selector" := Text(""), "text" := Text("")]
    case Wait => map["selector" := Text(""), "seconds" := Number(JsText.Num(5))]
    case Screenshot => map["filename" := Text("screenshot_" + Underscored(isoNow))]
    case Extract => map["selector" := Text(""), "variableName" := Text("data")]
  }

  /** A freshly dropped block does not pass its validator, except a screenshot, whose
      default file name is filled: the user must fill the form first. */
  lemma DroppedStepNeedsEditing(kind: StepKind, isoNow: string)
    ensures Validate(kind, DropDefaults(kind, isoNow)) <==> kind == Screenshot
  {
    assert !NonBlank("");
    match kind
    case Navigate =>
      assert DropDefaults(kind, isoNow)["url"] == Text("");
    case Click =>
      assert DropDefaults(kind, isoNow)["selector"] == Text("");
    case TypeText =>
      assert DropDefaults(kind, isoNow)["selector"] == Text("");
    case Wait =>
      assert DropDefaults(kind, isoNow)["selector"] == Text("");
    case Screenshot =>
      var name := "screenshot_" + Underscored(isoNow);
      assert DropDefaults(kind, isoNow)["filename"] == Text(name);
      assert !IsJsSpace(name[0]);
      NonBlankIffSomeVisibleChar(name);
    case Extract =>
      assert DropDefaults(kind, isoNow)["selector"] == Text("");
  }

  // ---------------------------------------------------------------------------
  // The list edits

  /** The steps after duplicateStep(index): a copy with a new id right after the original. */
  function Duplicated(steps: seq<EditorStep>, index: nat, newId: string): (r: seq<EditorStep>)
    requires index < |steps|
    ensures |r| == |steps| + 1
    ensures r[..index + 1] == steps[..index + 1] && r[index + 2..] == steps[index + 1..]
    ensures r[index + 1] == steps[index].(id := newId)
    ensures multiset(r) == multiset(steps) + multiset{steps[index].(id := newId)}
  {
    var r := Splice(steps, index + 1, 0, [steps[index].(id := newId)]);
    SpliceInsertAt(steps, index + 1, steps[index].(id := newId));
    assert r[..index + 1] == steps[..index + 1];
    assert r[index + 2..] == steps[index + 1..];
    r
  }

  /** The steps after deleteStep(index), that is `splice(index, 1)`. */
  function Deleted(steps: seq<EditorStep>, index: int): (r: seq<EditorStep>)
    ensures 0 <= index < |steps| ==> r == steps[..index] + steps[index + 1..]
    ensures index == -1 && steps != [] ==> r == steps[..|steps| - 1]
    ensures 0 - |steps| <= index < |steps| ==> |r| == |steps| - 1
  {
    Splice(steps, index, 1, [])
  }

  /** deleteStep removes exactly the step at the index: the others keep their order. */
  lemma DeletedRemovesOne(steps: seq<EditorStep>, index: nat)
    requires index < |steps|
    ensures var r := Deleted(steps, index);
            |r| == |steps| - 1 &&
            (forall j :: 0 <= j < index ==> r[j] == steps[j]) &&
            (forall j :: index <= j < |r| ==> r[j] == steps[j + 1]) &&
            multiset(r) + multiset{steps[index]} == multiset(steps)
  {
    SpliceRemoveAt(steps, index);
  }

  /** The steps after the drop reorder: the step at `source` is spliced out and spliced in
      again at `target`. */
  function Moved(steps: seq<EditorStep>, source: nat, target: int): (r: seq<EditorStep>)
    requires source < |steps|
    ensures |r| == |steps| && multiset(r) == multiset(steps)
    ensures 0 <= target < |steps| ==> r[target] == steps[source]
  {
    var rest := Splice(steps, source, 1, []);
    SpliceRemoveAt(steps, source);
    var a := SpliceStart(|rest|, target);
    var r := Splice(rest, target, 0, [steps[source]]);
    assert r == rest[..a] + [steps[source]] + rest[a..];
    assert rest == rest[..a] + rest[a..];
    r
  }

  /** A permutation of configured steps is configured. */
  lemma PermutedConfigured(a: seq<EditorStep>, b: seq<EditorStep>)
    requires multiset(a) == multiset(b) && Configured(a)
    ensures Configured(b)
  {
    forall j | 0 <= j < |b| ensures KindOf(b[j].stepType).Some? {
      assert b[j] in multiset(a);
      var k :| 0 <= k < |a| && a[k] == b[j];
    }
  }

  /** Dragging the step back to where it came from restores the list. */
  lemma {:induction false} MovedBack(steps: seq<EditorStep>, source: nat, target: nat)
    requires source < |steps| && target < |steps|
    ensures Moved(Moved(steps, source, target), target, source) == steps
  {
    MovedInRange(steps, source, target);
    var moved := Moved(steps, source, target);
    MovedInRange(moved, target, source);
    RemoveInsertBack(steps, source, target);
  }

  /** Taking `x` out at `source`, putting it in at `target`, taking it out again there
      and putting it back at `source` gives the original sequence. */
  lemma RemoveInsertBack<T>(s: seq<T>, source: nat, target: nat)
    requires source < |s| && target < |s|
    ensures var rest := s[..source] + s[source + 1..];
            var moved := rest[..target] + [s[source]] + rest[target..];
            |moved| == |s| && moved[target] == s[source] &&
            (moved[..target] + moved[target + 1..])[..source] + [s[source]] + (moved[..target] + moved[target + 1..])[source..] == s
  {
    var x := s[source];
    var rest := s[..source] + s[source + 1..];
    var moved := rest[..target] + [x] + rest[target..];
    assert moved[target] == x;
    assert moved[..target] + moved[target + 1..] == rest by {
      assert moved[..target] == rest[..target];
      assert moved[target + 1..] == rest[target..];
    }
    assert rest[..source] + [x] + rest[source..] == s by {
      assert rest[..source] == s[..source];
      assert rest[source..] == s[source + 1..];
    }
  }

  /** The reorder with both indices in the list, written with slices. */
  lemma MovedInRange(steps: seq<EditorStep>, source: nat, target: nat)
    requires source < |steps| && target < |steps|
    ensures var rest := steps[..source] + steps[source + 1..];
            Moved(steps, source, target) == rest[..target] + [steps[source]] + rest[target..]
  {
    var rest := steps[..source] + steps[source + 1..];
    assert Splice(steps, source, 1, []) == rest;
  }

  predicate IsNavigate(step: EditorStep) {
    step.stepType == "navigate"
  }

  /** The steps after the URL button with the trimmed text `url`: the first navigate
      step gets the url, or a new navigate step comes first. */
  function WithUrl(steps: seq<EditorStep>, url: string, newId: string): (r: seq<EditorStep>)
    ensures var i := FindIndex(r, IsNavigate);
            i >= 0 && "url" in r[i].parameters && r[i].parameters["url"] == Text(url)
  {
    var i := FindIndex(steps, IsNavigate);
    if i >= 0 then
      var r := steps[i := steps[i].(parameters := steps[i].parameters["url" := Text(url)])];
      FindIndexIsFirst(r, IsNavigate, i);
      r
    else
      var r := [EditorStep(newId, "navigate", map["url" := Text(url)])] + steps;
      FindIndexIsFirst(r, IsNavigate, 0);
      r
  }

  /** The URL button changes the url of the first navigate step and nothing else, or
      prepends a navigate step when there is none. */
  lemma WithUrlEffect(steps: seq<EditorStep>, url: string, newId: string)
    ensures var r := WithUrl(steps, url, newId);
            var i := FindIndex(steps, IsNavigate);
            (i >= 0 ==> |r| == |steps| && IsNavigate(r[i]) && r[i].parameters["url"] == Text(url) &&
                        r[i].id == steps[i].id &&
                        (forall k :: k in steps[i].parameters && k != "url" ==> k in r[i].parameters && r[i].parameters[k] == steps[i].parameters[k]) &&
                        (forall j :: 0 <= j < |steps| && j != i ==> r[j] == steps[j]) &&
                        (forall j :: 0 <= j < i ==> !IsNavigate(r[j]))) &&
            (i < 0 ==> r == [EditorStep(newId, "navigate", map["url" := Text(url)])] + steps &&
                       forall j :: 0 <= j < |steps| ==> !IsNavigate(steps[j]))
  {
  }

  /** Applying the button twice with the same url is the same as once. */
  lemma WithUrlIdempotent(steps: seq<EditorStep>, url: string, newId: string, otherId: string)
    ensures WithUrl(WithUrl(steps, url, newId), url, otherId) == WithUrl(steps, url, newId)
  {
    var r := WithUrl(steps, url, newId);
    var i := FindIndex(steps, IsNavigate);
    if i >= 0 {
      FindIndexIsFirst(r, IsNavigate, i);
      assert r[i].parameters["url" := Text(url)] == r[i].parameters;
      assert r[i := r[i].(parameters := r[i].parameters["url" := Text(url)])] == r;
    } else {
      FindIndexIsFirst(r, IsNavigate, 0);
      assert r[0].parameters["url" := Text(url)] == r[0].parameters;
      assert r[0 := r[0].(parameters := r[0].parameters["url" := Text(url)])] == r;
    }
  }

  /** The checks saveWorkflow and testWorkflow make before they act, with their messages. */
  function CheckWorkflow(name: string, steps: seq<EditorStep>): (r: Result<bool, string>)
    ensures r.Ok? <==> NonBlank(name) && |steps| > 0
    ensures !NonBlank(name) ==> r == Err("Please provide a name for the workflow.")
    ensures NonBlank(name) && |steps| == 0 ==> r == Err("Workflow must have at least one step.")
  {
    if Trim(name) == "" then Err("Please provide a name for the workflow.")
    else if |steps| == 0 then Err("Workflow must have at least one step.")
    else Ok(true)
  }

  // ---------------------------------------------------------------------------
  // The page state

  /** The toast a handler shows. */
  datatype Toast = Toast(title: string, message: string)

  /** The steps of the demo workflow the page starts with. */
  function DemoSteps(): seq<EditorStep> {
    [
      EditorStep("1", "navigate", map["url" := Text("https://example.com/login")]),
      EditorStep("2", "type", map["selector" := Text("#username"), "text" := Text("testuser")]),
      EditorStep("3", "type", map["selector" := Text("#password"), "text" := Text("password123")]),
      EditorStep("4", "click", map["selector" := Text("#loginButton")]),
      EditorStep("5", "wait", map["selector" := Text(".dashboard-container")])
    ]
  }

  /** Every demo step has a form, and the first four pass their validators; the wait
      step has no `seconds`, so saving its form unchanged is the only way to make it pass. */
  lemma DemoStepsForms()
    ensures Configured(DemoSteps())
    ensures Validate(Navigate, DemoSteps()[0].parameters) && Validate(TypeText, DemoSteps()[1].parameters) &&
            Validate(TypeText, DemoSteps()[2].parameters) && Validate(Click, DemoSteps()[3].parameters)
    ensures forall j :: 0 <= j < 4 ==> KindOf(DemoSteps()[j].stepType) == Some(DemoKind(j))
    ensures DemoSteps()[4].stepType == "wait" && !Validate(Wait, DemoSteps()[4].parameters)
  {
    DemoStepKinds();
    DemoLoginValid();
    DemoClickValid();
    assert "seconds" !in DemoSteps()[4].parameters;
  }

  /** The kinds of the first four demo steps. */
  function DemoKind(j: nat): StepKind {
    if j == 0 then Navigate else if j == 3 then Click else TypeText
  }

  lemma DemoStepKinds()
    ensures KindOf(DemoSteps()[0].stepType) == Some(Navigate)
    ensures KindOf(DemoSteps()[1].stepType) == Some(TypeText) && KindOf(DemoSteps()[2].stepType) == Some(TypeText)
    ensures KindOf(DemoSteps()[3].stepType) == Some(Click) && KindOf(DemoSteps()[4].stepType) == Some(Wait)
  {
  }

  lemma DemoLoginValid()
    ensures Validate(Navigate, DemoSteps()[0].parameters) && Validate(TypeText, DemoSteps()[1].parameters)
    ensures Validate(TypeText, DemoSteps()[2].parameters)
  {
    var d := DemoSteps();
    VisibleTextFilled(d[0].parameters, "url");
    VisibleTextFilled(d[1].parameters, "selector");
    VisibleTextFilled(d[1].parameters, "text");
    VisibleTextFilled(d[2].parameters, "selector");
    VisibleTextFilled(d[2].parameters, "text");
  }

  lemma DemoClickValid()
    ensures Validate(Click, DemoSteps()[3].parameters)
  {
    VisibleTextFilled(DemoSteps()[3].parameters, "selector");
  }

  lemma VisibleTextFilled(p: Params, key: string)
    requires key in p && p[key].Text? && p[key].s != [] && !IsJsSpace(p[key].s[0])
    ensures Filled(p, key)
  {
  }

  /** Every step has a configuration, so its form can be opened. */
  predicate Configured(steps: seq<EditorStep>) {
    forall j :: 0 <= j < |steps| ==> KindOf(steps[j].stepType).Some?
  }

  /** New parameters keep every step's type. */
  lemma ReplacedParamsConfigured(steps: seq<EditorStep>, i: nat, p: Params)
    requires i < |steps|
    ensures Configured(steps) ==> Configured(steps[i := steps[i].(parameters := p)])
  {
    var after := steps[i := steps[i].(parameters := p)];
    assert forall j :: 0 <= j < |steps| ==> after[j].stepType == steps[j].stepType;
  }

  /** The module state of the page: the workflow's name and steps, the step whose form
      is open, the step a delete is asked for, and the action of the confirm button. */
  class WorkflowEditor {
    var name: string
    var steps: seq<EditorStep>
    var editingStepIndex: int
    var deletingStepIndex: int
    var confirmAction: Option<string>

    predicate Valid()
      reads this
    {
      Configured(steps)
    }

    /** The demo workflow the page starts with. */
    constructor ()
      ensures Valid() && name == "Login Automation" && steps == DemoSteps()
      ensures editingStepIndex == -1 && deletingStepIndex == -1 && confirmAction == None
    {
      name := "Login Automation";
      steps := DemoSteps();
      DemoStepsForms();
      editingStepIndex := -1;
      deletingStepIndex := -1;
      confirmAction := None;
    }

    /** The change handler of the name input. */
    method Rename(value: string)
      modifies this
      ensures name == value && steps == old(steps) && editingStepIndex == old(editingStepIndex)
      ensures deletingStepIndex == old(deletingStepIndex) && confirmAction == old(confirmAction)
    {
      name := value;
    }

    /** openStepModal: records the index, then reads the step and its configuration,
        which throws for an index with no step. */
    method OpenStepModal(index: int) returns (shown: bool)
      modifies this
      ensures editingStepIndex == index
      ensures shown <==> 0 <= index < |steps| && KindOf(steps[index].stepType).Some?
      ensures name == old(name) && steps == old(steps)
      ensures deletingStepIndex == old(deletingStepIndex) && confirmAction == old(confirmAction)
    {
      editingStepIndex := index;
      shown := 0 <= index < |steps| && KindOf(steps[index].stepType).Some?;
    }

    /** closeStepModal */
    method CloseStepModal()
      modifies this
      ensures editingStepIndex == -1 && name == old(name) && steps == old(steps)
      ensures deletingStepIndex == old(deletingStepIndex) && confirmAction == old(confirmAction)
    {
      editingStepIndex := -1;
    }

    /** saveStep with the inputs of the open form: the generated parameters replace the
        step's when they pass the validator, and the form closes. */
    method SaveStep(form: Form) returns (toast: Option<Toast>)
      modifies this
      ensures name == old(name) && deletingStepIndex == old(deletingStepIndex) && confirmAction == old(confirmAction)
      ensures var i := old(editingStepIndex);
              if i == -1 || !(0 <= i < |old(steps)|) || KindOf(old(steps)[i].stepType).None? then
                toast == None && steps == old(steps) && editingStepIndex == i
              else
                var kind := KindOf(old(steps)[i].stepType).value;
                var p := Generate(kind, form);
                if Validate(kind, p) then
                  toast == Some(Toast("Success", "Step saved successfully!")) && editingStepIndex == -1 &&
                  steps == old(steps)[i := old(steps)[i].(parameters := p)]
                else
                  toast == Some(Toast("Error", "Please fill in all required fields correctly.")) &&
                  steps == old(steps) && editingStepIndex == i
      ensures old(Valid()) ==> Valid()
    {
      var i := editingStepIndex;
      // `step.type` of undefined throws for an index with no step
      if i == -1 || !(0 <= i < |steps|) || KindOf(steps[i].stepType).None? {
        return None;
      }
      var step := steps[i];
      var kind := KindOf(step.stepType).value;
      var p := Generate(kind, form);
      if Validate(kind, p) {
        ghost var before := steps;
        steps := steps[i := step.(parameters := p)];
        ReplacedParamsConfigured(before, i, p);
        CloseStepModal();
        toast := Some(Toast("Success", "Step saved successfully!"));
      } else {
        toast := Some(Toast("Error", "Please fill in all required fields correctly."));
      }
    }

    /** handleDrop of a sidebar block whose data text is `stepType`: a configured type
        gets a new step with blank parameters at the end, whose form opens. */
    method HandleDrop(stepType: string, newId: string, isoNow: string)
      modifies this
      ensures name == old(name) && deletingStepIndex == old(deletingStepIndex) && confirmAction == old(confirmAction)
      ensures KindOf(stepType).None? ==> steps == old(steps) && editingStepIndex == old(editingStepIndex)
      ensures KindOf(stepType).Some? ==>
                steps == old(steps) + [EditorStep(newId, stepType, DropDefaults(KindOf(stepType).value, isoNow))] &&
                editingStepIndex == |steps| - 1
      ensures old(Valid()) ==> Valid()
    {
      var kind := KindOf(stepType);
      if stepType != "" && kind.Some? {
        steps := steps + [EditorStep(newId, stepType, DropDefaults(kind.value, isoNow))];
        var _ := OpenStepModal(|steps| - 1);
      }
    }

    /** handleStepDrop of the block `sourceId` on the block `targetId` at `targetIndex`.
        `sourceIndex` is the index the drag recorded, None when the drag carried none
        (a sidebar block), where `JSON.parse` of the empty text throws. */
    method HandleStepDrop(sourceId: string, sourceIndex: Option<nat>, targetId: string, targetIndex: nat)
      requires sourceIndex.Some? ==> sourceIndex.value < |steps|
      modifies this
      ensures name == old(name) && editingStepIndex == old(editingStepIndex)
      ensures deletingStepIndex == old(deletingStepIndex) && confirmAction == old(confirmAction)
      ensures if sourceIndex.Some? && sourceId != "" && targetId != "" && sourceId != targetId
              then steps == Moved(old(steps), sourceIndex.value, targetIndex)
              else steps == old(steps)
      ensures multiset(steps) == multiset(old(steps))
      ensures old(Valid()) ==> Valid()
    {
      if sourceIndex.None? {
        return;
      }
      if sourceId != "" && targetId != "" && sourceId != targetId {
        ghost var before := steps;
        var stepToMove := steps[sourceIndex.value];
        steps := Splice(steps, sourceIndex.value, 1, []);
        steps := Splice(steps, targetIndex, 0, [stepToMove]);
        assert steps == Moved(before, sourceIndex.value, targetIndex);
        if Configured(before) {
          PermutedConfigured(before, steps);
        }
      }
    }

    /** duplicateStep(index); an index with no step throws in `JSON.parse` before any change. */
    method DuplicateStep(index: int, newId: string) returns (toast: Option<Toast>)
      modifies this
      ensures name == old(name) && editingStepIndex == old(editingStepIndex)
      ensures deletingStepIndex == old(deletingStepIndex) && confirmAction == old(confirmAction)
      ensures 0 <= index < |old(steps)| ==>
                steps == Duplicated(old(steps), index, newId) && toast == Some(Toast("Success", "Step duplicated successfully!"))
      ensures !(0 <= index < |old(steps)|) ==> steps == old(steps) && toast == None
      ensures old(Valid()) ==> Valid()
    {
      if !(0 <= index < |steps|) {
        return None;
      }
      ghost var before := steps;
      steps := Splice(steps, index + 1, 0, [steps[index].(id := newId)]);
      SpliceInsertAt(before, index + 1, before[index].(id := newId));
      toast := Some(Toast("Success", "Step duplicated successfully!"));
    }

    /** deleteStep(index), that is `splice(index, 1)`. */
    method DeleteStep(index: int) returns (toast: Toast)
      modifies this
      ensures name == old(name) && editingStepIndex == old(editingStepIndex)
      ensures deletingStepIndex == old(deletingStepIndex) && confirmAction == old(confirmAction)
      ensures steps == Deleted(old(steps), index) && toast == Toast("Success", "Step deleted successfully!")
      ensures old(Valid()) ==> Valid()
    {
      ghost var before := steps;
      steps := Splice(steps, index, 1, []);
      assert Configured(before) ==> Configured(steps) by {
        var a := SpliceStart(|before|, index);
        var d := if 1 <= |before| - a then 1 else |before| - a;
        forall j | 0 <= j < |steps| ensures steps[j] == before[if j < a then j else j + d] { }
      }
      toast := Toast("Success", "Step deleted successfully!");
    }

    /** openConfirmModal: a step delete records the index; any action is recorded on the
        confirm button. */
    method OpenConfirmModal(action: string, stepIndex: int)
      modifies this
      ensures name == old(name) && steps == old(steps) && editingStepIndex == old(editingStepIndex)
      ensures deletingStepIndex == (if action == "delete-step" then stepIndex else old(deletingStepIndex))
      ensures confirmAction == Some(action)
    {
      if action == "delete-step" {
        deletingStepIndex := stepIndex;
      }
      confirmAction := Some(action);
    }

    /** closeConfirmModal */
    method CloseConfirmModal()
      modifies this
      ensures deletingStepIndex == -1 && name == old(name) && steps == old(steps)
      ensures editingStepIndex == old(editingStepIndex) && confirmAction == old(confirmAction)
    {
      deletingStepIndex := -1;
    }

    /** confirmAction: deletes the recorded step only for a step delete with an index
        other than -1; the workflow delete of the demo only informs. The modal closes. */
    method ConfirmAction() returns (toast: Option<Toast>)
      modifies this
      ensures name == old(name) && editingStepIndex == old(editingStepIndex) && confirmAction == old(confirmAction)
      ensures deletingStepIndex == -1
      ensures old(confirmAction) == Some("delete-step") && old(deletingStepIndex) != -1 ==>
                steps == Deleted(old(steps), old(deletingStepIndex)) && toast == Some(Toast("Success", "Step deleted successfully!"))
      ensures !(old(confirmAction) == Some("delete-step") && old(deletingStepIndex) != -1) ==> steps == old(steps)
      ensures old(confirmAction) == Some("delete-workflow") ==>
                toast == Some(Toast("Info", "This is a demo - cannot delete the only workflow"))
      ensures (old(confirmAction) != Some("delete-step") || old(deletingStepIndex) == -1) &&
              old(confirmAction) != Some("delete-workflow") ==>
                toast == None
      ensures old(Valid()) ==> Valid()
    {
      toast := None;
      if confirmAction == Some("delete-step") && deletingStepIndex != -1 {
        var t := DeleteStep(deletingStepIndex);
        toast := Some(t);
      } else if confirmAction == Some("delete-workflow") {
        toast := Some(Toast("Info", "This is a demo - cannot delete the only workflow"));
      }
      CloseConfirmModal();
    }

    /** The URL button with the text of the url field. */
    method UpdateUrl(field: string, newId: string) returns (toast: Toast)
      modifies this
      ensures name == old(name) && editingStepIndex == old(editingStepIndex)
      ensures deletingStepIndex == old(deletingStepIndex) && confirmAction == old(confirmAction)
      ensures NonBlank(field) ==> steps == WithUrl(old(steps), Trim(field), newId) && toast == Toast("Success", "URL updated successfully")
      ensures !NonBlank(field) ==> steps == old(steps) && toast == Toast("Error", "Please enter a valid URL")
      ensures old(Valid()) ==> Valid()
    {
      var url := Trim(field);
      if url == "" {
        return Toast("Error", "Please enter a valid URL");
      }
      var i := FindIndex(steps, IsNavigate);
      if i >= 0 {
        steps := steps[i := steps[i].(parameters := steps[i].parameters["url" := Text(url)])];
      } else {
        steps := [EditorStep(newId, "navigate", map["url" := Text(url)])] + steps;
      }
      toast := Toast("Success", "URL updated successfully");
    }
  }
}
