/** The automation side of backend/src/automation/playwright.js: the small mappings
    used when a browser is launched, the dispatch of one workflow step to the page
    driver, and the step loop of runPlaywrightWorkflow. The browser and its pages are
    abstract: what the driver answers is an input. */
module Playwright {
  import opened Common
  import opened JsText
  import ProxyManager
  import ProfileManager

  // ---------------------------------------------------------------------------
  // Launch helpers

  /** BROWSER_ENGINES of shared/constants.js. */
  datatype Engine = Chromium | Firefox | Webkit

  function EngineName(e: Engine): string {
    match e
    case Chromium => "chromium"
    case Firefox => "firefox"
    case Webkit => "webkit"
  }

  /** getBrowserType: `profile.browserEngine || 'chromium'`, and chromium for any unknown name. */
  function GetBrowserType(browserEngine: Option<string>): (e: Engine)
    ensures e == Firefox <==> browserEngine == Some("firefox")
    ensures e == Webkit <==> browserEngine == Some("webkit")
    ensures e == Chromium <==> browserEngine != Some("firefox") && browserEngine != Some("webkit")
  {
    var engineName := OrString(browserEngine, "chromium");
    if engineName == "firefox" then Firefox
    else if engineName == "webkit" then Webkit
    else Chromium
  }

  lemma GetBrowserTypeOfName(e: Engine)
    ensures GetBrowserType(Some(EngineName(e))) == e
  {
  }

  /** The `proxy` launch option formatProxy builds. */
  datatype BrowserProxy = BrowserProxy(server: string, username: Option<string>, password: Option<string>)

  function ProxyScheme(proxyType: string): (s: string)
    ensures s == "https" <==> proxyType == "https"
    ensures s == "https" || s == "http"
  {
    if proxyType == "https" then "https" else "http"
  }

  /** formatProxy: null without a proxy, a host or a port; the server URL; the
      credentials only when both are set. */
  function FormatProxy(proxy: Option<ProxyManager.Proxy>): (r: Option<BrowserProxy>)
    ensures r.None? <==> proxy.None? || proxy.value.host == "" || proxy.value.port == ""
    ensures r.Some? ==> r.value.server == ProxyScheme(proxy.value.proxyType) + "://" + proxy.value.host + ":" + proxy.value.port
    ensures r.Some? ==> (r.value.username.Some? <==> ProxyManager.HasCredentials(proxy.value.username, proxy.value.password))
    ensures r.Some? ==> (r.value.password.Some? <==> r.value.username.Some?)
    ensures r.Some? && r.value.username.Some? ==>
              r.value.username.value == proxy.value.username && r.value.password.value == proxy.value.password
  {
    match proxy
    case None => None
    case Some(p) =>
      if p.host == "" || p.port == "" then None
      else
        var creds := ProxyManager.HasCredentials(p.username, p.password);
        Some(BrowserProxy(ProxyScheme(p.proxyType) + "://" + p.host + ":" + p.port,
                          if creds then Some(p.username) else None,
                          if creds then Some(p.password) else None))
  }

  /** The server URL uses TLS exactly for proxies of type `https`; every other type,
      the SOCKS ones included, is given to the browser as an `http://` server. */
  lemma FormatProxyScheme(p: ProxyManager.Proxy)
    requires p.host != "" && p.port != ""
    ensures StartsWith(FormatProxy(Some(p)).value.server, "https://") <==> p.proxyType == "https"
    ensures p.proxyType != "https" ==> StartsWith(FormatProxy(Some(p)).value.server, "http://")
  {
    var server := FormatProxy(Some(p)).value.server;
    if p.proxyType == "https" {
      assert server == "https://" + (p.host + ":" + p.port);
    } else {
      assert server == "http://" + (p.host + ":" + p.port);
      assert server[4] == ':';
    }
  }

  /** The viewport parseResolution computes: `resolution.split('x').map(Number)`; a
      resolution without `x` has no height (undefined). */
  datatype Viewport = Viewport(width: NumValue, height: Option<NumValue>)

  function ParseResolution(resolution: string): Viewport {
    var parts := Split(resolution, 'x');
    if |parts| == 1 then Viewport(ToNumber(parts[0]), None)
    else Viewport(ToNumber(parts[0]), Some(ToNumber(parts[1])))
  }

  /** The width and height are `Number` of the first two parts; a text without `x` is
      one part and gives no height. */
  lemma ParseResolutionParts(resolution: string)
    ensures var v, parts := ParseResolution(resolution), Split(resolution, 'x');
            v.width == ToNumber(parts[0]) && (v.height.Some? <==> |parts| >= 2) &&
            (|parts| >= 2 ==> v.height == Some(ToNumber(parts[1])))
    ensures 'x' !in resolution ==> ParseResolution(resolution) == Viewport(ToNumber(resolution), None)
  {
    var parts := Split(resolution, 'x');
    if |parts| == 1 {
      assert Join(parts, 'x') == parts[0];
    }
  }

  /** The rendering `WxH` of a width and a height parses back to the two numbers. */
  lemma ParseResolutionRoundTrip(width: nat, height: nat)
    ensures ParseResolution(NatToString(width) + "x" + NatToString(height)) == Viewport(Num(width), Some(Num(height)))
  {
    var w, h := NatToString(width), NatToString(height);
    DigitsHaveNoLetter(w, 'x');
    DigitsHaveNoLetter(h, 'x');
    assert w + "x" + h == w + ['x'] + h;
    SplitTwo(w, h, 'x');
    ParseResolutionParts(w + "x" + h);
    ToNumberOfNat(width);
    ToNumberOfNat(height);
  }

  /** WebRTC protection asks for the four permissions when the profile fakes or disables WebRTC. */
  predicate ProtectsWebRtc(webRTC: string) {
    webRTC == "fake" || webRTC == "disabled"
  }

  const ProtectedPermissions: seq<string> := ["geolocation", "notifications", "camera", "microphone"]

  /** The `contextOptions` object launchBrowser builds for a profile and hands to
      applyFingerprintProtection, which changes it in place. */
  class ContextOptions {
    var userAgent: Option<string>
    var locale: string
    var timezoneId: string
    var viewport: Viewport
    var deviceScaleFactor: int
    var hasTouch: bool
    var ignoreHttpsErrors: bool
    var javaScriptEnabled: bool
    var permissions: Option<seq<string>>

    constructor (profile: ProfileManager.Profile)
      ensures userAgent == (if profile.userAgent == "" then None else Some(profile.userAgent))
      ensures locale == profile.language && timezoneId == profile.timezone
      ensures viewport == ParseResolution(profile.screenResolution)
      ensures deviceScaleFactor == 1 && !hasTouch && ignoreHttpsErrors && javaScriptEnabled
      ensures permissions == None
    {
      userAgent := if profile.userAgent == "" then None else Some(profile.userAgent);
      locale := profile.language;
      timezoneId := profile.timezone;
      viewport := ParseResolution(profile.screenResolution);
      deviceScaleFactor := 1;
      hasTouch := false;
      ignoreHttpsErrors := true;
      javaScriptEnabled := true;
      permissions := None;
    }

    /** applyFingerprintProtection: sets `permissions` for a faked or disabled WebRTC
        and changes nothing else. */
    method ApplyFingerprintProtection(profile: ProfileManager.Profile)
      modifies this
      ensures permissions == if ProtectsWebRtc(profile.webRTC) then Some(ProtectedPermissions) else old(permissions)
      ensures userAgent == old(userAgent) && locale == old(locale) && timezoneId == old(timezoneId)
      ensures viewport == old(viewport) && deviceScaleFactor == old(deviceScaleFactor)
      ensures hasTouch == old(hasTouch) && ignoreHttpsErrors == old(ignoreHttpsErrors)
      ensures javaScriptEnabled == old(javaScriptEnabled)
    {
      if profile.webRTC == "fake" || profile.webRTC == "disabled" {
        permissions := Some(["geolocation", "notifications", "camera", "microphone"]);
      }
    }
  }

  // ---------------------------------------------------------------------------
  // One step

  /** A workflow step: its `type` and its `parameters` object (JNull for null). */
  datatype Step = Step(stepType: string, parameters: Json)

  /** WORKFLOW_STEP_TYPES of shared/constants.js. */
  predicate IsKnownType(t: string) {
    t == "navigate" || t == "click" || t == "type" || t == "wait" || t == "screenshot" || t == "extract"
  }

  /** What executeWorkflowStep asks of the page. */
  datatype Command =
    | Goto(url: Option<Json>, waitUntil: Json, timeout: Json)
    | Click(selector: Option<Json>, button: Json, clickCount: Json, delay: Json, timeout: Json)
    | Fill(selector: Option<Json>, text: Option<Json>, timeout: Json)
    | WaitForTimeout(milliseconds: Json)
    | WaitForSelector(target: Json, state: Json, timeout: Json)
    | WaitForNavigation(waitUntil: Json, timeout: Json)
    | Screenshot(filename: Option<Json>, fullPage: Json)   // None: the name made from the clock
    | EvaluateTexts(selector: Option<Json>)

  /** How the page answers a command: the texts an evaluation returned, or the error it threw. */
  datatype DriverReply = Answered(texts: seq<string>) | Threw(message: string)

  const DefaultTimeout: Json := JNum(30000)

  function Param(step: Step, key: string): Option<Json> {
    Get(step.parameters, key)
  }

  /** The property a step of a known type reads first from its parameters. */
  function FirstParameter(t: string): string
    requires IsKnownType(t)
  {
    if t == "navigate" then "url"
    else if t == "wait" then "milliseconds"
    else if t == "screenshot" then "filename"
    else "selector"
  }

  /** The TypeError reading a property of null throws (V8's wording). */
  function NullRead(key: string): string {
    "Cannot read properties of null (reading '" + key + "')"
  }

  /** The dispatch of executeWorkflowStep before the page answers. */
  datatype Dispatch = Send(command: Command) | NoCommand | ReadFailed(message: string)

  function DispatchStep(step: Step): (d: Dispatch)
    ensures d.ReadFailed? <==> IsKnownType(step.stepType) && step.parameters == JNull
    ensures d.ReadFailed? ==> d.message == NullRead(FirstParameter(step.stepType))
    ensures !IsKnownType(step.stepType) ==> d == NoCommand
    ensures d == NoCommand && IsKnownType(step.stepType) ==>
              step.stepType == "wait" && !PropTruthy(Param(step, "milliseconds")) &&
              !PropTruthy(Param(step, "selector")) && !PropTruthy(Param(step, "navigation"))
    ensures step.parameters != JNull && step.stepType == "navigate" ==>
              d.Send? && d.command.Goto? && d.command.url == Param(step, "url")
    ensures step.parameters != JNull && step.stepType == "click" ==>
              d.Send? && d.command.Click? && d.command.selector == Param(step, "selector")
    ensures step.parameters != JNull && step.stepType == "type" ==>
              d.Send? && d.command.Fill? && d.command.selector == Param(step, "selector") && d.command.text == Param(step, "text")
    ensures step.parameters != JNull && step.stepType == "wait" && PropTruthy(Param(step, "milliseconds")) ==>
              d == Send(WaitForTimeout(Param(step, "milliseconds").value))
    ensures step.parameters != JNull && step.stepType == "wait" && !PropTruthy(Param(step, "milliseconds")) &&
            PropTruthy(Param(step, "selector")) ==>
              d.Send? && d.command.WaitForSelector? && d.command.target == Param(step, "selector").value
    ensures step.parameters != JNull && step.stepType == "wait" && !PropTruthy(Param(step, "milliseconds")) &&
            !PropTruthy(Param(step, "selector")) && PropTruthy(Param(step, "navigation")) ==>
              d.Send? && d.command.WaitForNavigation?
    ensures step.parameters != JNull && step.stepType == "screenshot" ==>
              d.Send? && d.command.Screenshot? &&
              d.command.filename == (if PropTruthy(Param(step, "filename")) then Param(step, "filename") else None)
    ensures step.parameters != JNull && step.stepType == "extract" ==>
              d == Send(EvaluateTexts(Param(step, "selector")))
  {
    var t := step.stepType;
    if !IsKnownType(t) then NoCommand
    else if step.parameters == JNull then ReadFailed(NullRead(FirstParameter(t)))
    else if t == "navigate" then
      Send(Goto(Param(step, "url"), OrJson(Param(step, "waitUntil"), JStr("load")),
                OrJson(Param(step, "timeout"), DefaultTimeout)))
    else if t == "click" then
      Send(Click(Param(step, "selector"), OrJson(Param(step, "button"), JStr("left")),
                 OrJson(Param(step, "clickCount"), JNum(1)), OrJson(Param(step, "delay"), JNum(0)),
                 OrJson(Param(step, "timeout"), DefaultTimeout)))
    else if t == "type" then
      Send(Fill(Param(step, "selector"), Param(step, "text"), OrJson(Param(step, "timeout"), DefaultTimeout)))
    else if t == "wait" then
      if PropTruthy(Param(step, "milliseconds")) then
        Send(WaitForTimeout(Param(step, "milliseconds").value))
      else if PropTruthy(Param(step, "selector")) then
        Send(WaitForSelector(Param(step, "selector").value, OrJson(Param(step, "state"), JStr("visible")),
                             OrJson(Param(step, "timeout"), DefaultTimeout)))
      else if PropTruthy(Param(step, "navigation")) then
        Send(WaitForNavigation(OrJson(Param(step, "waitUntil"), JStr("load")),
                               OrJson(Param(step, "timeout"), DefaultTimeout)))
      else NoCommand
    else if t == "screenshot" then
      Send(Screenshot(if PropTruthy(Param(step, "filename")) then Param(step, "filename") else None,
                      OrJson(Param(step, "fullPage"), JBool(false))))
    else
      Send(EvaluateTexts(Param(step, "selector")))
  }

  /** With no options given, each type sends its command with the documented defaults:
      `load` and 30000 ms for navigation, the left button once without delay, and
      no full-page screenshot. A wait step with nothing to wait for sends nothing; the
      defaults of the selector and navigation waits are in DispatchOverrides. */
  lemma DispatchDefaults(t: string)
    ensures var d := DispatchStep(Step(t, JObj(map[])));
            (t == "navigate" ==> d == Send(Goto(None, JStr("load"), JNum(30000)))) &&
            (t == "click" ==> d == Send(Click(None, JStr("left"), JNum(1), JNum(0), JNum(30000)))) &&
            (t == "type" ==> d == Send(Fill(None, None, JNum(30000)))) &&
            (t == "wait" ==> d == NoCommand) &&
            (t == "screenshot" ==> d == Send(Screenshot(None, JBool(false)))) &&
            (t == "extract" ==> d == Send(EvaluateTexts(None)))
  {
  }

  /** A truthy option overrides its default, and a falsy one (`0`, `""`, `false`, `null`)
      does not, as `||` decides; for the selector wait the defaults are `visible` and
      30000 ms, for the navigation wait `load` and 30000 ms. */
  lemma DispatchOverrides(step: Step, key: string)
    requires step.parameters.JObj?
    ensures var d := DispatchStep(step);
            var given := Param(step, key);
            var chosen := (v: Json) => if PropTruthy(given) then given.value else v;
            (step.stepType == "navigate" && key == "waitUntil" ==> d.command.waitUntil == chosen(JStr("load"))) &&
            (step.stepType == "navigate" && key == "timeout" ==> d.command.timeout == chosen(JNum(30000))) &&
            (step.stepType == "click" && key == "button" ==> d.command.button == chosen(JStr("left"))) &&
            (step.stepType == "click" && key == "clickCount" ==> d.command.clickCount == chosen(JNum(1))) &&
            (step.stepType == "click" && key == "delay" ==> d.command.delay == chosen(JNum(0))) &&
            (step.stepType == "click" && key == "timeout" ==> d.command.timeout == chosen(JNum(30000))) &&
            (step.stepType == "type" && key == "timeout" ==> d.command.timeout == chosen(JNum(30000))) &&
            (step.stepType == "screenshot" && key == "fullPage" ==> d.command.fullPage == chosen(JBool(false))) &&
            (step.stepType == "wait" && !PropTruthy(Param(step, "milliseconds")) && PropTruthy(Param(step, "selector")) ==>
               (key == "state" ==> d.command.state == chosen(JStr("visible"))) &&
               (key == "timeout" ==> d.command.timeout == chosen(JNum(30000)))) &&
            (step.stepType == "wait" && !PropTruthy(Param(step, "milliseconds")) && !PropTruthy(Param(step, "selector")) &&
             PropTruthy(Param(step, "navigation")) ==>
               (key == "waitUntil" ==> d.command.waitUntil == chosen(JStr("load"))) &&
               (key == "timeout" ==> d.command.timeout == chosen(JNum(30000))))
  {
  }

  /** What one step did: the command sent, its log entries and the error it rethrew. */
  datatype StepRun = StepRun(command: Option<Command>, logs: seq<LogEntry>, error: Option<string>)

  /** The log entries of a command the page carried out. */
  function DoneLogs(c: Command, texts: seq<string>): (logs: seq<LogEntry>)
    ensures 1 <= |logs| <= 2
    ensures forall k :: 0 <= k < |logs| ==> logs[k].level == Info
  {
    match c
    case Goto(url, _, _) => [LogEntry(Info, Navigated(url))]
    case Click(selector, _, _, _, _) => [LogEntry(Info, Clicked(selector))]
    case Fill(selector, _, _) => [LogEntry(Info, Typed(selector))]
    case WaitForTimeout(ms) => [LogEntry(Info, WaitedMilliseconds(ms))]
    case WaitForSelector(target, _, _) => [LogEntry(Info, WaitedSelector(target))]
    case WaitForNavigation(_, _) => [LogEntry(Info, WaitedNavigation)]
    case Screenshot(_, _) => [LogEntry(Info, ScreenshotSaved)]
    case EvaluateTexts(selector) =>
      var shown := if |texts| <= 5 then texts else texts[..5];
      [LogEntry(Info, Extracted(|texts|, selector)), LogEntry(Info, ExtractedData(shown, |texts| > 5))]
  }

  /** executeWorkflowStep with the screenshot step handled by the driver. */
  function ExecuteStep(step: Step, reply: DriverReply): (r: StepRun)
    ensures r.error.Some? ==> r.logs == [LogEntry(LogLevel.Error, StepExecutionError(r.error.value))]
    ensures !IsKnownType(step.stepType) ==> r == StepRun(None, [LogEntry(Warning, UnknownStepType(step.stepType))], None)
    ensures r.command.Some? ==> DispatchStep(step) == Send(r.command.value)
    ensures r.command.Some? && reply.Threw? ==> r.error == Some(reply.message)
    ensures r.command.Some? && reply.Answered? ==> r.error.None? && r.logs == DoneLogs(r.command.value, reply.texts)
    ensures DispatchStep(step).Send? ==> r.command == Some(DispatchStep(step).command)
    ensures DispatchStep(step).ReadFailed? ==> r.command.None? && r.error == Some(DispatchStep(step).message)
    ensures DispatchStep(step) == NoCommand ==> r.command.None? && r.error.None?
  {
    match DispatchStep(step)
    case ReadFailed(m) => StepRun(None, [LogEntry(LogLevel.Error, StepExecutionError(m))], Some(m))
    case NoCommand =>
      if IsKnownType(step.stepType) then StepRun(None, [], None)
      else StepRun(None, [LogEntry(Warning, UnknownStepType(step.stepType))], None)
    case Send(c) =>
      match reply
      case Threw(m) => StepRun(Some(c), [LogEntry(LogLevel.Error, StepExecutionError(m))], Some(m))
      case Answered(texts) => StepRun(Some(c), DoneLogs(c, texts), None)
  }

  /** The ReferenceError the screenshot branch throws: `path` is used but never required. */
  const PathUndefined: string := "path is not defined"

  /** executeWorkflowStep as written: the screenshot branch fails before it reaches the page. */
  function ExecuteStepAsWritten(step: Step, reply: DriverReply): (r: StepRun)
    ensures step.stepType != "screenshot" ==> r == ExecuteStep(step, reply)
  {
    if step.stepType == "screenshot" then
      StepRun(None, [LogEntry(LogLevel.Error, StepExecutionError(PathUndefined))], Some(PathUndefined))
    else ExecuteStep(step, reply)
  }

  /** As written, no screenshot step can succeed, whatever its parameters and the page. */
  lemma ScreenshotAlwaysFailsAsWritten(parameters: Json, reply: DriverReply)
    ensures var r := ExecuteStepAsWritten(Step("screenshot", parameters), reply);
            r.error == Some(PathUndefined) && r.command.None?
  {
  }

  /** With the driver call, a screenshot step whose page answers saves and logs it. */
  lemma ScreenshotSucceedsWhenDriverDoes(parameters: Json, texts: seq<string>)
    requires parameters.JObj?
    ensures var r := ExecuteStep(Step("screenshot", parameters), Answered(texts));
            r.error.None? && r.logs == [LogEntry(Info, ScreenshotSaved)] && r.command.Some? && r.command.value.Screenshot?
  {
  }

  /** The wait step: milliseconds before selector before navigation, else a no-op. */
  lemma WaitPrecedence(parameters: Json, reply: DriverReply)
    requires parameters.JObj?
    ensures var step := Step("wait", parameters);
            var r := ExecuteStep(step, reply);
            (PropTruthy(Param(step, "milliseconds")) ==>
               r.command == Some(WaitForTimeout(Param(step, "milliseconds").value))) &&
            (!PropTruthy(Param(step, "milliseconds")) && PropTruthy(Param(step, "selector")) ==>
               r.command.Some? && r.command.value.WaitForSelector? &&
               r.command.value.target == Param(step, "selector").value) &&
            (!PropTruthy(Param(step, "milliseconds")) && !PropTruthy(Param(step, "selector")) &&
             PropTruthy(Param(step, "navigation")) ==>
               r.command.Some? && r.command.value.WaitForNavigation?) &&
            (!PropTruthy(Param(step, "milliseconds")) && !PropTruthy(Param(step, "selector")) &&
             !PropTruthy(Param(step, "navigation")) ==>
               r == StepRun(None, [], None))
  {
  }

  /** Extraction logs the number of texts and at most five of them, marking a cut. */
  lemma ExtractLogsPreview(parameters: Json, texts: seq<string>)
    requires parameters.JObj?
    ensures var r := ExecuteStep(Step("extract", parameters), Answered(texts));
            r.logs[0] == LogEntry(Info, Extracted(|texts|, Get(parameters, "selector"))) &&
            r.logs[1].message.ExtractedData? &&
            r.logs[1].message.preview == texts[..if |texts| < 5 then |texts| else 5] &&
            (r.logs[1].message.truncated <==> |texts| > 5)
  {
    assert texts[..|texts|] == texts;
  }

  // ---------------------------------------------------------------------------
  // The step loop

  /** How one step is carried out: `ExecuteStep`, or `ExecuteStepAsWritten`. */
  type StepRunner = (Step, DriverReply) -> StepRun

  /** A runner whose own entries never announce a step. */
  ghost predicate Quiet(exec: StepRunner) {
    forall step, reply :: !AnnouncesStep(exec(step, reply).logs)
  }

  predicate AnnouncesStep(logs: seq<LogEntry>) {
    exists k :: 0 <= k < |logs| && logs[k].message.ExecutingStep?
  }

  /** A runner that logs exactly the error entry of each step it rethrows. */
  ghost predicate ReportsErrors(exec: StepRunner) {
    forall step, reply :: exec(step, reply).error.Some? ==>
      exec(step, reply).logs == [LogEntry(LogLevel.Error, StepExecutionError(exec(step, reply).error.value))]
  }

  /** How the step loop ended. */
  datatype LoopEnd = Exhausted | CancelledAt(index: nat) | FailedAt(index: nat, message: string)

  datatype LoopRun = LoopRun(logs: seq<LogEntry>, end: LoopEnd)

  /** The loop of runPlaywrightWorkflow from step `i` on. `polls(i + 1)` is the value of
      `stopToken.cancelled` when it is checked before step `i`; `replies(i)` is how the
      page answers step `i`. */
  function StepsFrom(steps: seq<Step>, exec: StepRunner, polls: nat -> bool, replies: nat -> DriverReply, i: nat): LoopRun
    requires i <= |steps|
    decreases |steps| - i
  {
    if i == |steps| then LoopRun([], Exhausted)
    else if polls(i + 1) then LoopRun([LogEntry(Info, ExecutionCancelled)], CancelledAt(i))
    else
      var s := exec(steps[i], replies(i));
      var head := [LogEntry(Info, ExecutingStep(i + 1, steps[i].stepType))] + s.logs;
      if s.error.Some? then LoopRun(head, FailedAt(i, s.error.value))
      else
        var rest := StepsFrom(steps, exec, polls, replies, i + 1);
        LoopRun(head + [LogEntry(Success, StepCompleted(i + 1))] + rest.logs, rest.end)
  }

  /** How launchBrowser resolves for the workflow. */
  datatype LaunchReply = BrowserReady | BrowserFailed(message: string)

  /** runPlaywrightWorkflow returns, or rethrows the error of a step or of the launch. */
  datatype RunResult = Returned | Rethrew(message: string)

  datatype Run = Run(logs: seq<LogEntry>, result: RunResult)

  /** The log and the outcome of runPlaywrightWorkflow. */
  function RunSpec(steps: seq<Step>, exec: StepRunner, polls: nat -> bool, launch: LaunchReply,
                   replies: nat -> DriverReply, closeOk: bool, keepBrowserOpen: bool): Run
  {
    if polls(0) then Run([LogEntry(Info, CancelledBeforeStart)], Returned)
    else match launch
      case BrowserFailed(m) => Run([LogEntry(Info, SettingUpBrowser), LogEntry(LogLevel.Error, WorkflowError(m))], Rethrew(m))
      case BrowserReady =>
        var loop := StepsFrom(steps, exec, polls, replies, 0);
        var body := [LogEntry(Info, SettingUpBrowser), LogEntry(Info, BrowserLaunched)] + loop.logs;
        var closing := if !keepBrowserOpen && closeOk then [LogEntry(Info, BrowserClosed)] else [];
        match loop.end
        case FailedAt(_, m) => Run(body + [LogEntry(LogLevel.Error, WorkflowError(m))] + closing, Rethrew(m))
        case _ => Run(body + [LogEntry(Success, ExecutionCompleted)] + closing, Returned)
  }

  /** One round of the loop, unfolded. */
  lemma StepsFromUnfold(steps: seq<Step>, exec: StepRunner, polls: nat -> bool, replies: nat -> DriverReply, i: nat)
    requires i < |steps|
    ensures var s := exec(steps[i], replies(i));
            var head := [LogEntry(Info, ExecutingStep(i + 1, steps[i].stepType))] + s.logs;
            var rest := StepsFrom(steps, exec, polls, replies, i + 1);
            StepsFrom(steps, exec, polls, replies, i) ==
              if polls(i + 1) then LoopRun([LogEntry(Info, ExecutionCancelled)], CancelledAt(i))
              else if s.error.Some? then LoopRun(head, FailedAt(i, s.error.value))
              else LoopRun(head + [LogEntry(Success, StepCompleted(i + 1))] + rest.logs, rest.end)
  {
  }

  /** The step loop of runPlaywrightWorkflow: each check of the token, then the step. */
  method RunSteps(steps: seq<Step>, exec: StepRunner, polls: nat -> bool, replies: nat -> DriverReply)
    returns (loopLogs: seq<LogEntry>, end: LoopEnd)
    ensures LoopRun(loopLogs, end) == StepsFrom(steps, exec, polls, replies, 0)
  {
    loopLogs := [];
    var i := 0;
    var stopped := false;
    end := Exhausted;
    while !stopped && i < |steps|
      invariant 0 <= i <= |steps|
      invariant !stopped ==> end == Exhausted
      invariant !stopped ==> StepsFrom(steps, exec, polls, replies, 0).logs == loopLogs + StepsFrom(steps, exec, polls, replies, i).logs
      invariant !stopped ==> StepsFrom(steps, exec, polls, replies, 0).end == StepsFrom(steps, exec, polls, replies, i).end
      invariant stopped ==> StepsFrom(steps, exec, polls, replies, 0) == LoopRun(loopLogs, end)
      decreases |steps| - i, if stopped then 0 else 1
    {
      StepsFromUnfold(steps, exec, polls, replies, i);
      if polls(i + 1) {
        loopLogs := loopLogs + [LogEntry(Info, ExecutionCancelled)];
        end := CancelledAt(i);
        stopped := true;
      } else {
        var s := exec(steps[i], replies(i));
        var head := [LogEntry(Info, ExecutingStep(i + 1, steps[i].stepType))] + s.logs;
        if s.error.Some? {
          loopLogs := loopLogs + head;
          end := FailedAt(i, s.error.value);
          stopped := true;
        } else {
          assert loopLogs + (head + [LogEntry(Success, StepCompleted(i + 1))]) + StepsFrom(steps, exec, polls, replies, i + 1).logs
              == loopLogs + StepsFrom(steps, exec, polls, replies, i).logs;
          loopLogs := loopLogs + (head + [LogEntry(Success, StepCompleted(i + 1))]);
          i := i + 1;
        }
      }
    }
    if !stopped {
      assert loopLogs + [] == loopLogs;
    }
  }

  /** runPlaywrightWorkflow. `closeOk` says whether `browser.close()` resolves. */
  method RunPlaywrightWorkflow(steps: seq<Step>, polls: nat -> bool, launch: LaunchReply,
                               replies: nat -> DriverReply, closeOk: bool, keepBrowserOpen: bool)
    returns (logs: seq<LogEntry>, result: RunResult)
    ensures Run(logs, result) == RunSpec(steps, ExecuteStep, polls, launch, replies, closeOk, keepBrowserOpen)
  {
    if polls(0) {
      return [LogEntry(Info, CancelledBeforeStart)], Returned;
    }
    logs := [LogEntry(Info, SettingUpBrowser)];
    if launch.BrowserFailed? {
      logs := logs + [LogEntry(LogLevel.Error, WorkflowError(launch.message))];
      return logs, Rethrew(launch.message);
    }
    logs := logs + [LogEntry(Info, BrowserLaunched)];
    var loopLogs, end := RunSteps(steps, ExecuteStep, polls, replies);
    logs := logs + loopLogs;
    RunEnding(steps, ExecuteStep, polls, replies, closeOk, keepBrowserOpen);
    assert logs == [LogEntry(Info, SettingUpBrowser), LogEntry(Info, BrowserLaunched)] + StepsFrom(steps, ExecuteStep, polls, replies, 0).logs;
    if end.FailedAt? {
      logs := logs + [LogEntry(LogLevel.Error, WorkflowError(end.message))];
      result := Rethrew(end.message);
    } else {
      logs := logs + [LogEntry(Success, ExecutionCompleted)];
      result := Returned;
    }
    if !keepBrowserOpen && closeOk {
      logs := logs + [LogEntry(Info, BrowserClosed)];
    }
  }

  /** The end of a run's log once the browser launched: completion (also after a
      cancellation) or the workflow error naming the step's error, then the close entry
      unless the browser is kept open or fails to close. */
  lemma RunEnding(steps: seq<Step>, exec: StepRunner, polls: nat -> bool, replies: nat -> DriverReply,
                  closeOk: bool, keepBrowserOpen: bool)
    requires !polls(0)
    ensures var loop := StepsFrom(steps, exec, polls, replies, 0);
            var closing := if !keepBrowserOpen && closeOk then [LogEntry(Info, BrowserClosed)] else [];
            var body := [LogEntry(Info, SettingUpBrowser), LogEntry(Info, BrowserLaunched)] + loop.logs;
            RunSpec(steps, exec, polls, BrowserReady, replies, closeOk, keepBrowserOpen) ==
              if loop.end.FailedAt? then Run(body + [LogEntry(LogLevel.Error, WorkflowError(loop.end.message))] + closing, Rethrew(loop.end.message))
              else Run(body + [LogEntry(Success, ExecutionCompleted)] + closing, Returned)
  {
  }

  /** A token cancelled before the start launches nothing and logs one entry. */
  lemma CancelledBeforeStarting(steps: seq<Step>, exec: StepRunner, polls: nat -> bool, launch: LaunchReply,
                                replies: nat -> DriverReply, closeOk: bool, keepBrowserOpen: bool)
    requires polls(0)
    ensures RunSpec(steps, exec, polls, launch, replies, closeOk, keepBrowserOpen) == Run([LogEntry(Info, CancelledBeforeStart)], Returned)
  {
  }

  // ---------------------------------------------------------------------------
  // Properties of the run

  /** The step numbers of the "Executing step" entries of a log, in order. */
  function Started(logs: seq<LogEntry>): (r: seq<nat>)
    ensures r == [] <==> !AnnouncesStep(logs)
  {
    if logs == [] then []
    else
      var rest := Started(logs[1..]);
      assert AnnouncesStep(logs) <==> logs[0].message.ExecutingStep? || AnnouncesStep(logs[1..]) by {
        if AnnouncesStep(logs) {
          var k :| 0 <= k < |logs| && logs[k].message.ExecutingStep?;
          if k > 0 { assert logs[1..][k - 1] == logs[k]; }
        }
        if AnnouncesStep(logs[1..]) {
          var k :| 0 <= k < |logs[1..]| && logs[1..][k].message.ExecutingStep?;
          assert logs[k + 1] == logs[1..][k];
        }
      }
      (if logs[0].message.ExecutingStep? then [logs[0].message.number] else []) + rest
  }

  lemma {:induction false} StartedConcat(a: seq<LogEntry>, b: seq<LogEntry>)
    ensures Started(a + b) == Started(a) + Started(b)
  {
    if a == [] {
      assert a + b == b;
    } else {
      assert (a + b)[1..] == a[1..] + b;
      StartedConcat(a[1..], b);
    }
  }

  lemma StartedOne(e: LogEntry)
    ensures Started([e]) == if e.message.ExecutingStep? then [e.message.number] else []
  {
    assert [e][1..] == [];
  }

  /** The step runners of this model keep their entries to the step itself. */
  lemma RunnersAreQuiet()
    ensures Quiet(ExecuteStep) && Quiet(ExecuteStepAsWritten)
    ensures ReportsErrors(ExecuteStep) && ReportsErrors(ExecuteStepAsWritten)
  {
    forall step, reply ensures !AnnouncesStep(ExecuteStep(step, reply).logs) {
      var logs := ExecuteStep(step, reply).logs;
      if AnnouncesStep(logs) {
        var k :| 0 <= k < |logs| && logs[k].message.ExecutingStep?;
        assert false;
      }
    }
  }

  /** The consecutive numbers lo, lo + 1, ..., hi - 1. */
  function Numbers(lo: nat, hi: nat): (r: seq<nat>)
    requires lo <= hi
    ensures |r| == hi - lo && forall k :: 0 <= k < |r| ==> r[k] == lo + k
    decreases hi - lo
  {
    if lo == hi then [] else [lo] + Numbers(lo + 1, hi)
  }

  /** How many steps the loop started from `i` on. */
  function StartedCount(end: LoopEnd, total: nat, i: nat): int {
    match end
    case Exhausted => total - i
    case CancelledAt(j) => j - i
    case FailedAt(j, _) => j - i + 1
  }

  /** The entries of a step that completed, then those of the steps after it. */
  lemma StartedAfterSuccess(head: seq<LogEntry>, done: LogEntry, rest: seq<LogEntry>, i: nat, n: nat)
    requires Started(head) == [i + 1] && !done.message.ExecutingStep?
    requires Started(rest) == Numbers(i + 2, i + 2 + n)
    ensures Started(head + [done] + rest) == Numbers(i + 1, i + 2 + n)
  {
    StartedOne(done);
    StartedConcat(head, [done]);
    StartedConcat(head + [done], rest);
    assert [i + 1] + Numbers(i + 2, i + 2 + n) == Numbers(i + 1, i + 2 + n);
  }

  /** The entries of a quiet step announce only that step. */
  lemma StartedOfStep(announce: LogEntry, logs: seq<LogEntry>)
    requires announce.message.ExecutingStep? && !AnnouncesStep(logs)
    ensures Started([announce] + logs) == [announce.message.number]
  {
    StartedOne(announce);
    StartedConcat([announce], logs);
  }

  /** Steps i + 1, i + 2, ... are announced in order, as many as the loop started. */
  predicate StartsInOrder(steps: seq<Step>, exec: StepRunner, polls: nat -> bool, replies: nat -> DriverReply, i: nat)
    requires i <= |steps|
  {
    var r := StepsFrom(steps, exec, polls, replies, i);
    var n := StartedCount(r.end, |steps|, i);
    0 <= n <= |steps| - i && Started(r.logs) == Numbers(i + 1, i + 1 + n)
  }

  /** A completed step followed by steps started in order. */
  lemma StartsInOrderAfterSuccess(steps: seq<Step>, exec: StepRunner, polls: nat -> bool,
                                  replies: nat -> DriverReply, i: nat)
    requires i < |steps| && !polls(i + 1) && Quiet(exec) && exec(steps[i], replies(i)).error.None?
    requires StartsInOrder(steps, exec, polls, replies, i + 1)
    ensures StartsInOrder(steps, exec, polls, replies, i)
  {
    var s := exec(steps[i], replies(i));
    var announce := LogEntry(Info, ExecutingStep(i + 1, steps[i].stepType));
    StartedOfStep(announce, s.logs);
    var rest := StepsFrom(steps, exec, polls, replies, i + 1);
    var done := LogEntry(Success, StepCompleted(i + 1));
    var n := StartedCount(rest.end, |steps|, i + 1);
    StartedAfterSuccess([announce] + s.logs, done, rest.logs, i, n);
    var r := StepsFrom(steps, exec, polls, replies, i);
    assert r == LoopRun([announce] + s.logs + [done] + rest.logs, rest.end);
    assert StartedCount(r.end, |steps|, i) == n + 1;
  }

  /** A failed step is the last one started. */
  lemma StartsInOrderAtFailure(steps: seq<Step>, exec: StepRunner, polls: nat -> bool,
                               replies: nat -> DriverReply, i: nat)
    requires i < |steps| && !polls(i + 1) && Quiet(exec) && exec(steps[i], replies(i)).error.Some?
    ensures StartsInOrder(steps, exec, polls, replies, i)
  {
    var s := exec(steps[i], replies(i));
    var announce := LogEntry(Info, ExecutingStep(i + 1, steps[i].stepType));
    StartedOfStep(announce, s.logs);
    assert StepsFrom(steps, exec, polls, replies, i) == LoopRun([announce] + s.logs, FailedAt(i, s.error.value));
    assert Numbers(i + 1, i + 2) == [i + 1];
  }

  /** The loop starts steps strictly in index order, each once, and no step after the
      one that failed or the check that saw the cancellation. */
  lemma {:induction false} StepsRunInOrder(steps: seq<Step>, exec: StepRunner, polls: nat -> bool,
                                           replies: nat -> DriverReply, i: nat)
    requires i <= |steps| && Quiet(exec)
    ensures StartsInOrder(steps, exec, polls, replies, i)
    decreases |steps| - i
  {
    if i == |steps| {
      assert StepsFrom(steps, exec, polls, replies, i) == LoopRun([], Exhausted);
    } else if polls(i + 1) {
      assert StepsFrom(steps, exec, polls, replies, i) == LoopRun([LogEntry(Info, ExecutionCancelled)], CancelledAt(i));
      StartedOne(LogEntry(Info, ExecutionCancelled));
    } else if exec(steps[i], replies(i)).error.None? {
      StepsRunInOrder(steps, exec, polls, replies, i + 1);
      StartsInOrderAfterSuccess(steps, exec, polls, replies, i);
    } else {
      StartsInOrderAtFailure(steps, exec, polls, replies, i);
    }
  }

  /** The loop stops early only at a check that saw the cancellation or at a step that failed. */
  lemma {:induction false} LoopEndCause(steps: seq<Step>, exec: StepRunner, polls: nat -> bool,
                                        replies: nat -> DriverReply, i: nat)
    requires i <= |steps|
    ensures var e := StepsFrom(steps, exec, polls, replies, i).end;
            (e.CancelledAt? ==> i <= e.index < |steps| && polls(e.index + 1)) &&
            (e.FailedAt? ==> i <= e.index < |steps| && exec(steps[e.index], replies(e.index)).error == Some(e.message))
    decreases |steps| - i
  {
    if i < |steps| && !polls(i + 1) && exec(steps[i], replies(i)).error.None? {
      LoopEndCause(steps, exec, polls, replies, i + 1);
    }
  }

  /** A failing step ends the loop with its own error entry and is not retried. */
  lemma {:induction false} FailureStopsLoop(steps: seq<Step>, exec: StepRunner, polls: nat -> bool,
                                            replies: nat -> DriverReply, i: nat)
    requires i <= |steps| && ReportsErrors(exec)
    ensures var r := StepsFrom(steps, exec, polls, replies, i);
            r.end.FailedAt? ==> |r.logs| >= 2 && r.logs[|r.logs| - 1] == LogEntry(LogLevel.Error, StepExecutionError(r.end.message))
    decreases |steps| - i
  {
    if i < |steps| && !polls(i + 1) && exec(steps[i], replies(i)).error.None? {
      FailureStopsLoop(steps, exec, polls, replies, i + 1);
    }
  }

  /** When no check sees a cancellation and every step succeeds, all steps run and complete. */
  lemma {:induction false} AllStepsComplete(steps: seq<Step>, exec: StepRunner, polls: nat -> bool,
                                            replies: nat -> DriverReply, i: nat)
    requires i <= |steps|
    requires forall k :: i < k <= |steps| ==> !polls(k)
    requires forall k :: i <= k < |steps| ==> exec(steps[k], replies(k)).error.None?
    ensures StepsFrom(steps, exec, polls, replies, i).end == Exhausted
    decreases |steps| - i
  {
    if i < |steps| {
      AllStepsComplete(steps, exec, polls, replies, i + 1);
    }
  }

  /** As written, a workflow reaching a screenshot step fails there, however the page answers. */
  lemma ScreenshotWorkflowFailsAsWritten(steps: seq<Step>, polls: nat -> bool, replies: nat -> DriverReply, j: nat)
    requires j < |steps| && steps[j].stepType == "screenshot"
    requires forall k :: 0 < k <= j + 1 ==> !polls(k)
    requires forall k :: 0 <= k < j ==> ExecuteStepAsWritten(steps[k], replies(k)).error.None?
    ensures StepsFrom(steps, ExecuteStepAsWritten, polls, replies, 0).end == FailedAt(j, PathUndefined)
  {
    ScreenshotReached(steps, polls, replies, j, 0);
  }

  lemma {:induction false} ScreenshotReached(steps: seq<Step>, polls: nat -> bool, replies: nat -> DriverReply, j: nat, i: nat)
    requires i <= j < |steps| && steps[j].stepType == "screenshot"
    requires forall k :: i < k <= j + 1 ==> !polls(k)
    requires forall k :: i <= k < j ==> ExecuteStepAsWritten(steps[k], replies(k)).error.None?
    ensures StepsFrom(steps, ExecuteStepAsWritten, polls, replies, i).end == FailedAt(j, PathUndefined)
    decreases j - i
  {
    if i < j {
      ScreenshotReached(steps, polls, replies, j, i + 1);
    }
  }
}
