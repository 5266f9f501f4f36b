/** Values and helpers shared by every component: the optional/error wrappers,
    JSON values with JavaScript truthiness, `String.prototype.trim`,
    `Array.prototype.findIndex` and `splice`, the status and log-level enums of
    shared/constants.js, and the messages that make up a workflow log. */
module Common {

  datatype Option<+T> = None | Some(value: T) {
    /** `x !== undefined ? x : d` */
    function GetOr(d: T): T {
      match this
      case Some(v) => v
      case None => d
    }
  }

  datatype Result<+T, +E> = Ok(value: T) | Err(error: E)

  /** A JSON value as the step parameters hold it (numbers are modelled as integers). */
  datatype Json =
    | JNull
    | JBool(b: bool)
    | JNum(n: int)
    | JStr(s: string)
    | JArr(items: seq<Json>)
    | JObj(fields: map<string, Json>)

  /** JavaScript `ToBoolean` of a value. */
  predicate Truthy(v: Json) {
    match v
    case JNull => false
    case JBool(b) => b
    case JNum(n) => n != 0
    case JStr(s) => s != ""
    case JArr(_) => true
    case JObj(_) => true
  }

  /** Reading `v.key` from a value that is not null: a missing property is `undefined` (None). */
  function Get(v: Json, key: string): (r: Option<Json>)
    ensures r.Some? <==> v.JObj? && key in v.fields
    ensures r.Some? ==> r.value == v.fields[key]
  {
    if v.JObj? && key in v.fields then Some(v.fields[key]) else None
  }

  /** Truthiness of a property that may be `undefined`. */
  predicate PropTruthy(o: Option<Json>) {
    o.Some? && Truthy(o.value)
  }

  /** `o || d` for a property read. */
  function OrJson(o: Option<Json>, d: Json): (r: Json)
    ensures PropTruthy(o) ==> r == o.value
    ensures !PropTruthy(o) ==> r == d
  {
    if PropTruthy(o) then o.value else d
  }

  /** `s || d` for a string field that may be `undefined`: the empty string counts as missing. */
  function OrString(o: Option<string>, d: string): (r: string)
    ensures r == d || (o.Some? && r == o.value && o.value != "")
    ensures o.Some? && o.value != "" ==> r == o.value
  {
    if o.Some? && o.value != "" then o.value else d
  }

  /** The characters `String.prototype.trim` removes: WhiteSpace and LineTerminator of ECMA-262. */
  predicate IsJsSpace(c: char) {
    var n := c as int;
    n == 0x09 || n == 0x0A || n == 0x0B || n == 0x0C || n == 0x0D || n == 0x20 ||
    n == 0xA0 || n == 0x1680 || (0x2000 <= n <= 0x200A) || n == 0x2028 || n == 0x2029 ||
    n == 0x202F || n == 0x205F || n == 0x3000 || n == 0xFEFF
  }

  predicate IsBlank(s: string) {
    forall k :: 0 <= k < |s| ==> IsJsSpace(s[k])
  }

  function TrimStart(s: string): (r: string)
    ensures |r| <= |s| && r == s[|s| - |r|..]
    ensures forall k :: 0 <= k < |s| - |r| ==> IsJsSpace(s[k])
    ensures r == [] || !IsJsSpace(r[0])
  {
    if |s| > 0 && IsJsSpace(s[0]) then TrimStart(s[1..]) else s
  }

  function TrimEnd(s: string): (r: string)
    ensures |r| <= |s| && r == s[..|r|]
    ensures forall k :: |r| <= k < |s| ==> IsJsSpace(s[k])
    ensures r == [] || !IsJsSpace(r[|r| - 1])
  {
    if |s| > 0 && IsJsSpace(s[|s| - 1]) then TrimEnd(s[..|s| - 1]) else s
  }

  /** `s.trim()`: the longest infix of `s` that neither starts nor ends with white space. */
  function Trim(s: string): (r: string)
    ensures var a := |s| - |TrimStart(s)|; a + |r| <= |s| && r == s[a..a + |r|]
    ensures r == [] || (!IsJsSpace(r[0]) && !IsJsSpace(r[|r| - 1]))
    ensures r == [] <==> IsBlank(s)
  {
    var t := TrimStart(s);
    var r := TrimEnd(t);
    assert r == s[|s| - |t|..|s| - |t| + |r|];
    if r == [] then r
    else
      assert r[0] == t[0];
      r
  }

  /** `s.trim().length > 0` (see NonBlankIffTrimmedNonEmpty); the same as
      `!!s && s.trim().length > 0` for a string. */
  predicate NonBlank(s: string) {
    !IsBlank(s)
  }

  lemma NonBlankIffTrimmedNonEmpty(s: string)
    ensures NonBlank(s) <==> |Trim(s)| > 0
  {
  }

  lemma NonBlankIffSomeVisibleChar(s: string)
    ensures NonBlank(s) <==> exists k :: 0 <= k < |s| && !IsJsSpace(s[k])
  {
  }

  /** `s.startsWith(prefix)`. */
  predicate StartsWith(s: string, prefix: string) {
    |prefix| <= |s| && s[..|prefix|] == prefix
  }

  /** `Array.prototype.findIndex`. */
  function FindIndex<T>(s: seq<T>, p: T -> bool): (r: int)
    ensures -1 <= r < |s|
    ensures r >= 0 ==> p(s[r]) && forall j :: 0 <= j < r ==> !p(s[j])
    ensures r == -1 ==> forall j :: 0 <= j < |s| ==> !p(s[j])
  {
    if |s| == 0 then -1
    else if p(s[0]) then 0
    else
      var k := FindIndex(s[1..], p);
      if k == -1 then -1 else k + 1
  }

  /** `findIndex` answers the first position that satisfies the predicate. */
  lemma FindIndexIsFirst<T>(s: seq<T>, p: T -> bool, i: int)
    requires -1 <= i < |s|
    requires i >= 0 ==> p(s[i])
    requires forall j :: 0 <= j < (if i < 0 then |s| else i) ==> !p(s[j])
    ensures FindIndex(s, p) == i
  {
  }

  /** Where `splice(start, ...)` begins on an array of length `len`. */
  function SpliceStart(len: nat, start: int): (a: nat)
    ensures a <= len
    ensures 0 <= start <= len ==> a == start
    ensures start < 0 ==> a == if len + start < 0 then 0 else len + start
  {
    if start < 0 then (if len + start < 0 then 0 else len + start)
    else if start > len then len
    else start
  }

  /** The array after `s.splice(start, deleteCount, ...items)`. */
  function Splice<T>(s: seq<T>, start: int, deleteCount: nat, items: seq<T>): seq<T> {
    var a := SpliceStart(|s|, start);
    var d := if deleteCount <= |s| - a then deleteCount else |s| - a;
    s[..a] + items + s[a + d..]
  }

  /** The array `s.splice(start, deleteCount)` returns (the removed elements). */
  function Spliced<T>(s: seq<T>, start: int, deleteCount: nat): seq<T> {
    var a := SpliceStart(|s|, start);
    var d := if deleteCount <= |s| - a then deleteCount else |s| - a;
    s[a..a + d]
  }

  lemma SpliceRemoveAt<T>(s: seq<T>, i: nat)
    requires i < |s|
    ensures |Splice(s, i, 1, [])| == |s| - 1
    ensures forall j :: 0 <= j < i ==> Splice(s, i, 1, [])[j] == s[j]
    ensures forall j :: i <= j < |s| - 1 ==> Splice(s, i, 1, [])[j] == s[j + 1]
    ensures multiset(Splice(s, i, 1, [])) + multiset{s[i]} == multiset(s)
    ensures Spliced(s, i, 1) == [s[i]]
  {
    assert s == s[..i] + [s[i]] + s[i + 1..];
  }

  lemma SpliceInsertAt<T>(s: seq<T>, i: nat, x: T)
    requires i <= |s|
    ensures |Splice(s, i, 0, [x])| == |s| + 1
    ensures Splice(s, i, 0, [x])[i] == x
    ensures forall j :: 0 <= j < i ==> Splice(s, i, 0, [x])[j] == s[j]
    ensures forall j :: i < j <= |s| ==> Splice(s, i, 0, [x])[j] == s[j - 1]
    ensures multiset(Splice(s, i, 0, [x])) == multiset(s) + multiset{x}
  {
    assert s == s[..i] + s[i..];
  }

  /** The status values of shared/constants.js (one enum serves workflows and proxies). */
  datatype Status = Idle | Running | Completed | Error | Working | Testing | NotTested

  type WorkflowStatus = s: Status | s.Idle? || s.Running? || s.Completed? || s.Error? witness Idle
  type ProxyStatus = s: Status | s.NotTested? || s.Testing? || s.Working? || s.Error? witness NotTested

  /** LOG_LEVELS of shared/constants.js. */
  datatype LogLevel = Info | Success | Warning | Error

  /** The template of each log message, carrying the values interpolated into it. */
  datatype Message =
      // backend/src/automation/playwright.js
    | CancelledBeforeStart
    | SettingUpBrowser
    | BrowserLaunched
    | ExecutionCancelled
    | ExecutingStep(number: nat, stepType: string)
    | StepCompleted(number: nat)
    | ExecutionCompleted
    | WorkflowError(cause: string)
    | BrowserClosed
    | Navigated(url: Option<Json>)
    | Clicked(selector: Option<Json>)
    | Typed(selector: Option<Json>)
    | WaitedMilliseconds(milliseconds: Json)
    | WaitedSelector(waitedFor: Json)
    | WaitedNavigation
    | ScreenshotSaved
    | Extracted(count: nat, selector: Option<Json>)
    | ExtractedData(preview: seq<string>, truncated: bool)
    | UnknownStepType(stepType: string)
    | StepExecutionError(cause: string)
      // backend/src/workflowExecutor.js
    | StartingExecution(workflowName: string)
    | CompletedSuccessfully
    | ExecutionErrorLog(cause: string)
    | ExecutionFailed(cause: string)

  datatype LogEntry = LogEntry(level: LogLevel, message: Message)
}
