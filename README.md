# AntiDetectBrowser core in Dafny

AntiDetectBrowser is an Electron application. It manages browser *profiles* (each a fingerprint configuration: user agent, screen resolution, WebRTC and canvas policy and an optional proxy), a table of *proxies* with a health probe, and *workflows*, which are lists of browser steps that Playwright replays against a profile. This project models the parts of it that keep state:

- **The profile session registry** (`ProfileManager`). It holds the `profiles` array and the `activeProfiles` map from profile id to a running browser. Launching a profile marks it active, stores the browser handle and counts a session. Closing it removes the handle and marks it inactive. The class invariant `Consistent` says that a profile is active exactly when its id is in the map, and every exported operation keeps it. UpdateProfileStatus, the internal step of launch and close, need not keep it on its own.
- **The workflow run supervisor** (`WorkflowExecutor`). It holds the `workflows` array and the `runningWorkflows` map from workflow id to a shared `{ cancelled }` token. `ExecuteWorkflow` is the synchronous guard-and-start part. `StopWorkflow` cancels the token. `FinishRun` is the promise chain that settles a background run. The ghost invariant `Coherent` says that a workflow is `running` exactly when a live (uncancelled) token is registered for it, and that every registered token belongs to an unsettled run.
- **The Playwright step interpreter** (`Playwright`). This covers the step loop of `runPlaywrightWorkflow` with its cancellation checks and log, the dispatch of `executeWorkflowStep` to an abstract page driver, and the launch-option helpers (`formatProxy`, `parseResolution`, `getBrowserType`, `applyFingerprintProtection`).
- **The proxy table and its probe** (`ProxyManager`, `Base64`). This covers the CRUD merge rules and the `testing → working | error` sequence of `testProxy`. It also covers the decisions the probe makes: HTTP or SOCKS, the SOCKS version and destination port, when `Proxy-Authorization` is sent, and how an HTTP status is classified. The probe's outcome is an input. The `Basic` credential is proved to decode to `user:password` (section 2 of RFC 7617, base64 of section 4 of RFC 4648).
- **The two step-list editors.**
  - `StepEditor` is the block editor of the web page. It covers the per-type parameter forms and their validators, drop, reorder, duplicate, delete, confirm and the URL button.
  - `AutomationView` is the workflow form of the desktop renderer. It covers the per-step updaters, validation and the cleaning of steps on submit.

`Common` holds the helpers every module shares: `Option`, `Result`, JSON values with JavaScript truthiness, `trim`, `findIndex`, `splice`, the status enums and the log messages. `JsText` holds the `Number`, `parseInt`, `String(n)` and `split` conversions the core relies on.

Time stamps (`Date.now()`), fresh ids (`uuidv4()`, `Date.now().toString()`), the browser launch outcome, the page's answers, the proxy probe's outcome, the values the cancel flag shows at each check, and `JSON.parse` results are parameters of the methods that use them. Saving to the JSON files is a no-op.

## Model

| member | source | states |
|---|---|---|
| Common.Trim | public/js/automation.js:61 | `trim()` yields an infix of the text that starts and ends with a visible character, and is empty exactly for white-space-only text |
| Common.NonBlankIffTrimmedNonEmpty | public/js/automation.js:61 | the predicate the validators use holds exactly when the trimmed text is non-empty |
| Common.NonBlankIffSomeVisibleChar | public/js/automation.js:61 | a trimmed text is non-empty iff the text holds a character that is not white space |
| Common.FindIndex | backend/src/profileManager.js:114 | `findIndex` answers the first index satisfying the predicate, or -1 when none does |
| Common.FindIndexIsFirst | backend/src/profileManager.js:114 | any index that satisfies the predicate with no earlier one that does is what `findIndex` answers |
| Common.OrString | backend/src/profileManager.js:64-73 | `x \|\| d` on a string keeps a non-empty given value and falls back to the default otherwise |
| Common.SpliceRemoveAt | src/renderer/src/views/Automation.js:706 | `splice(i, 1)` removes exactly element i, the others keep their order, and it returns `[s[i]]` |
| Common.SpliceInsertAt | public/js/automation.js:819 | `splice(i, 0, x)` puts x at i and shifts the rest by one |
| JsText.NatToStringRoundTrip | backend/src/proxyManager.js:296 | the decimal rendering of a number reads back as that number |
| JsText.ToNumberOfNat | backend/src/automation/playwright.js:114 | `Number` of a decimal rendering is that number |
| JsText.ToNumberOfDigits | backend/src/automation/playwright.js:114 | `Number` of a non-empty run of decimal digits is their value, and `Number` of a blank text is 0 |
| JsText.ParseIntOfNat | backend/src/proxyManager.js:296 | `parseInt(s, 10)` of digits followed by a non-digit is the value of the digits |
| JsText.ParseInt | backend/src/proxyManager.js:296 | `parseInt(s, 10)` of a non-empty run of decimal digits is their value, and of a blank text NaN |
| JsText.Split | backend/src/automation/playwright.js:114 | `split` yields at least one part, no part contains the separator, and joining the parts gives the text back |
| JsText.SplitTwo | backend/src/automation/playwright.js:114 | `"a" + sep + "b"` splits into exactly `[a, b]` when neither holds the separator |
| Base64.Utf8 | backend/src/proxyManager.js:262 | `Buffer.from(s)` takes one to four bytes per character |
| Base64.Utf8Concat | backend/src/proxyManager.js:262 | encoding a concatenation is the concatenation of the encodings |
| Base64.Utf8OfAscii | backend/src/proxyManager.js:262 | an ASCII text encodes to one byte per character, equal to its code |
| Base64.SextetRoundTrip | backend/src/proxyManager.js:262 | each character of the base64 alphabet decodes to the 6-bit value it encodes |
| Base64.Encode | backend/src/proxyManager.js:262 | base64 output has four characters per started three-byte group |
| Base64.DecodeEncode | backend/src/proxyManager.js:262 | decoding the base64 text of any byte string gives the byte string back |
| Base64.BasicCredentials | backend/src/proxyManager.js:261-262 | the header value starts with `Basic ` |
| Base64.BasicCredentialsDecode | backend/src/proxyManager.js:261-262 | the text after `Basic ` decodes to UTF-8 of user, a colon, then UTF-8 of password |
| ProxyManager.NewProxy | backend/src/proxyManager.js:63-77 | a new proxy is `not_tested` with no test time, type defaults to `http` (never empty), credentials and location default to empty |
| ProxyManager.MergeProxy | backend/src/proxyManager.js:118-129 | an update keeps id, status, last test and creation time. Name, type, host and port change only to a non-empty value. Credentials, country and city take any given value |
| ProxyManager.MergeWithoutValues | backend/src/proxyManager.js:118-129 | an update with nothing given, or `""` for the `\|\|` fields, changes only the time stamp |
| ProxyManager.MergeIdempotent | backend/src/proxyManager.js:118-129 | applying the same update twice equals applying it once |
| ProxyManager.MergeEmptyStrings | backend/src/proxyManager.js:122-125 | an empty string clears the credentials but not the host |
| ProxyManager.IndexOfProxy | backend/src/proxyManager.js:169 | the lookup answers the first proxy with that id, or -1 when none has it |
| ProxyManager.FindProxy | backend/src/proxyManager.js:101-103 | `getProxy` answers null iff no proxy has the id, else the first stored proxy with that id |
| ProxyManager.DestinationPort | backend/src/proxyManager.js:302 | the SOCKS destination port is 443 iff the protocol is `https:`, else 80 |
| ProxyManager.ProbeRequestFor | backend/src/proxyManager.js:224-311 | the probe goes through SOCKS iff the type starts with `socks`. HTTP uses TLS iff the type is `https` and sends `Proxy-Authorization` iff both user name and password are non-empty. SOCKS uses version 4 iff the type is `socks4`, else 5, with the port `parseInt`ed, destination `www.google.com:443` and credentials iff both are given |
| ProxyManager.SocksPortOfDecimal | backend/src/proxyManager.js:296 | a decimal port reaches the SOCKS client as that number |
| ProxyManager.ProbeAuthorizationCarriesCredentials | backend/src/proxyManager.js:260-263 | the header sent is the `Basic` credential of exactly this user name and password |
| ProxyManager.HttpWorkingClasses | backend/src/proxyManager.js:269 | `200 <= code < 400` is the same as the 2xx and 3xx classes of section 15 of RFC 9110 |
| ProxyManager.ConnectionWorks | backend/src/proxyManager.js:213-322 | the probe resolves true iff an HTTP probe gets a 2xx/3xx answer or a SOCKS connection opens. A timeout, a thrown error, a request error or a failed SOCKS connection give false |
| ProxyManager.FinalStatus | backend/src/proxyManager.js:185-192 | the status after the probe is `working` iff the probe succeeded, else `error` |
| ProxyManager.TestingSnapshot | backend/src/proxyManager.js:177-181 | the first callback sees the record as `testing` with the test time set, and every other field as stored |
| ProxyManager.FormatProxyForAutomation | backend/src/proxyManager.js:329-344 | null iff no proxy. Otherwise the server is `host:port`, the type is copied, and both credentials are copied iff both are non-empty |
| ProxyManager.AutomationServerSplits | backend/src/proxyManager.js:333 | the server text splits back into host and port when neither holds a colon |
| ProxyManager.ProxyTable.constructor | backend/src/proxyManager.js:10 | the table starts empty |
| ProxyManager.ProxyTable.AddProxy | backend/src/proxyManager.js:61-86 | the new record is appended and returned, and nothing else changes |
| ProxyManager.ProxyTable.GetProxy | backend/src/proxyManager.js:101-103 | answers the first stored proxy with the id, or none when no stored proxy has it |
| ProxyManager.ProxyTable.UpdateProxy | backend/src/proxyManager.js:111-138 | an unknown id fails with "Proxy not found" and changes nothing. Otherwise the first record with the id is replaced by its merge and returned |
| ProxyManager.ProxyTable.DeleteProxy | backend/src/proxyManager.js:145-159 | an unknown id fails and changes nothing. Otherwise exactly the first record with the id is removed |
| ProxyManager.ProxyTable.TestProxy | backend/src/proxyManager.js:167-206 | with nothing else running during the probe: an unknown id fails with "Proxy not found", changes nothing and fires no callback. Otherwise there are exactly two callbacks, the `testing` snapshot then the final record, whose status is `working` iff the probe succeeded. Only that record changes |
| ProxyManager.ProxyTable.BeginTest | backend/src/proxyManager.js:169-181 | an unknown id fails with "Proxy not found" and changes nothing. Otherwise the first record with the id becomes its `testing` snapshot, which is returned |
| ProxyManager.ProxyTable.FinishTest | backend/src/proxyManager.js:183-195 | the result is stored in the record that has the id when the probe ends: only its status changes, nothing changes when it was deleted meanwhile, and no other record is touched |
| ProxyManager.ProxyIndexOfSameIds | backend/src/proxyManager.js:169 | the lookup answers the same position in arrays with the same ids, so a run of testProxy with nothing in between finds its record again |
| ProxyManager.BeginTestAsWritten | backend/src/proxyManager.js:169-181 | as written, the object at the first index with the id is marked `testing` in place, and the index and object are kept across the probe |
| ProxyManager.DeleteAsWritten | backend/src/proxyManager.js:145-159 | a delete removes the slot, so every later record moves down one, and leaves the objects alone |
| ProxyManager.FinishTestAsWritten | backend/src/proxyManager.js:185-195 | as written, the held object gets its final status and is stored at the index found before the probe, whatever that slot holds now |
| ProxyManager.StaleIndexAsWritten | backend/src/proxyManager.js:169-195 | for any records `a`, `b`, `c` whose ids differ from `b`'s, testing `b` of `[a, b, c]` while `a` is deleted leaves `[b, b]` as written: `c` is lost |
| ProxyManager.StaleIndexCorrected | backend/src/proxyManager.js:169-195 | the same sequence on the corrected table leaves `b` with its result followed by `c` |
| ProxyManager.TestedRecord | backend/src/proxyManager.js:177-199 | after a test the record is `working` exactly when the probe succeeded. Its test time is set, and every other field is as before |
| ProfileManager.NewProfile | backend/src/profileManager.js:61-78 | the defaults of a new profile (`windows`, `1920x1080`, `en-US`, `UTC`, `real`). An empty proxy id becomes null. It starts inactive with no sessions |
| ProfileManager.MergeProfile | backend/src/profileManager.js:124-138 | an update keeps id, active, sessions and creation time. User agent, proxy id and notes take any given value. The other fields change only to a non-empty value |
| ProfileManager.MergeEmptyStrings | backend/src/profileManager.js:124-138 | an empty string clears the user agent and notes but leaves the `\|\|` fields |
| ProfileManager.IndexOfProfile | backend/src/profileManager.js:114 | the lookup answers the first profile with that id, or -1 |
| ProfileManager.FindProfile | backend/src/profileManager.js:102-104 | `getProfile` answers null iff no profile has the id, else the first stored profile with that id |
| ProfileManager.LaunchProxy | backend/src/profileManager.js:195-201 | no proxy unless the proxy id is non-empty. A non-empty id that resolves to nothing fails with "Proxy not found", and one that resolves yields that proxy |
| ProfileManager.IdsOfAppend | backend/src/profileManager.js:80 | appending a record adds exactly its id to the ids |
| ProfileManager.IdsOfSameIds | backend/src/profileManager.js:140 | arrays with the same id at each position have the same ids |
| ProfileManager.ActiveIffTracked | backend/src/profileManager.js:302-304 | in a consistent registry an id has a browser iff its profile exists and is active |
| ProfileManager.CloseAllStep | backend/src/profileManager.js:312-318 | one round of `closeAllProfiles` closes that profile and keeps the loop invariant for one id fewer |
| ProfileManager.ProfileRegistry.constructor | backend/src/profileManager.js:7-8 | an empty, consistent registry |
| ProfileManager.ProfileRegistry.CreateProfile | backend/src/profileManager.js:59-87 | appends the new record and leaves the map alone |
| ProfileManager.ProfileRegistry.GetProfile | backend/src/profileManager.js:102-104 | answers a stored profile with the id, or none when no profile has it |
| ProfileManager.ProfileRegistry.GetProfileBrowserInstance | backend/src/profileManager.js:302-304 | a browser is answered iff the profile exists and is active, and it is the tracked one |
| ProfileManager.ProfileRegistry.UpdateProfile | backend/src/profileManager.js:112-147 | refuses an unknown id ("Profile not found") and an active profile ("Cannot update an active profile") without change. Otherwise it stores the merge. The invariant holds |
| ProfileManager.ProfileRegistry.DeleteProfile | backend/src/profileManager.js:154-173 | refuses an unknown or an active profile without change. Otherwise it removes exactly that record (one fewer). The invariant holds |
| ProfileManager.ProfileRegistry.UpdateProfileStatus | backend/src/profileManager.js:279-295 | sets `active` and the time stamp of the first record with the id, or fails with "Profile not found" and changes nothing |
| ProfileManager.ProfileRegistry.LaunchProfile | backend/src/profileManager.js:182-239 | fails without change and without callback for an unknown id, an active profile or a missing proxy. On a launch, the profile becomes active, the handle is stored and sessions grow by exactly one after one callback. On a failed launch, `active` is rolled back, the map and sessions stay as they were, and there are two callbacks. The invariant holds |
| ProfileManager.ProfileRegistry.CloseProfile | backend/src/profileManager.js:247-271 | the id always leaves the map, and `close()` is asked of a connected browser only. The profile ends inactive, or the call fails with the wrapped "Profile not found". So a second call finds no entry and leaves the same state except the time stamp. The invariant holds |
| ProfileManager.ProfileRegistry.CloseAllProfiles | backend/src/profileManager.js:309-319 | afterwards the map is empty and no profile is active: exactly those active at the start were closed, with the time stamp set |
| Playwright.GetBrowserType | backend/src/automation/playwright.js:71-84 | firefox iff the engine is `firefox`, webkit iff `webkit`, and chromium for a missing or any other name |
| Playwright.GetBrowserTypeOfName | backend/src/automation/playwright.js:71-84 | each engine's name selects that engine |
| Playwright.ProxyScheme | backend/src/automation/playwright.js:97 | the scheme is `https` iff the type is `https`, else `http` |
| Playwright.FormatProxy | backend/src/automation/playwright.js:91-106 | null iff there is no proxy, host or port. Otherwise the server is `scheme://host:port`, and both credentials are copied iff both are non-empty |
| Playwright.FormatProxyScheme | backend/src/automation/playwright.js:91-106 | the server URL starts with `https://` iff the type is `https`, and with `http://` otherwise |
| Playwright.ParseResolutionParts | backend/src/automation/playwright.js:113-116 | width and height are `Number` of the first two `x`-separated parts. A text without `x` gives no height |
| Playwright.ParseResolutionRoundTrip | backend/src/automation/playwright.js:113-116 | `WxH` of two numbers parses back to those numbers |
| Playwright.ContextOptions.constructor | backend/src/automation/playwright.js:38-47 | the context options a profile yields: user agent unless empty, locale, time zone, the parsed viewport and the fixed flags |
| Playwright.ContextOptions.ApplyFingerprintProtection | backend/src/automation/playwright.js:123-133 | the four permissions are set iff WebRTC is `fake` or `disabled`, and nothing else changes |
| Playwright.DispatchStep | backend/src/automation/playwright.js:205-277 | a known step with null parameters fails reading its first property, and an unknown type sends nothing. Otherwise each type sends its own command (goto, click, fill, one of the three waits in order of precedence, screenshot, evaluate) carrying the step's url, selector, text or file name |
| Playwright.DispatchDefaults | backend/src/automation/playwright.js:209-260 | with no options, navigation waits for `load` with 30000 ms, a click is one left click without delay, typing has 30000 ms, a screenshot is not full-page, and a wait with nothing to wait for sends nothing |
| Playwright.DispatchOverrides | backend/src/automation/playwright.js:209-260 | a truthy option replaces its default, and a falsy one leaves the default, as `\|\|` decides: `waitUntil` (`load`) and `timeout` (30000) for navigation; `button` (`left`), `clickCount` (1), `delay` (0) and `timeout` (30000) for a click; `timeout` (30000) for typing; `fullPage` (false) for a screenshot; `state` (`visible`) and `timeout` (30000) for a wait on a selector; `waitUntil` (`load`) and `timeout` (30000) for a wait on navigation |
| Playwright.DoneLogs | backend/src/automation/playwright.js:213-272 | a completed command logs one or two info entries |
| Playwright.ExecuteStep | backend/src/automation/playwright.js:205-282 | an unknown type gives one warning and no error. A dispatched command is sent. A thrown driver error or a null-parameters TypeError is logged as "Step execution error" and rethrown. An answered command logs its entries, and a wait with nothing to wait for does nothing. The screenshot step is an opaque driver call |
| Playwright.ExecuteStepAsWritten | backend/src/automation/playwright.js:205-282 | agrees with ExecuteStep on every step type except screenshot |
| Playwright.ScreenshotAlwaysFailsAsWritten | backend/src/automation/playwright.js:252-256 | as written, every screenshot step fails with the `path` ReferenceError and sends no command |
| Playwright.ScreenshotSucceedsWhenDriverDoes | backend/src/automation/playwright.js:252-263 | with the driver call, a screenshot whose page answers saves and logs without error |
| Playwright.WaitPrecedence | backend/src/automation/playwright.js:233-250 | `milliseconds` before `selector` before `navigation`, and with none of them no command and no entry |
| Playwright.ExtractLogsPreview | backend/src/automation/playwright.js:265-273 | extraction logs the count and a preview of at most five texts, marking a cut |
| Playwright.StepsFromUnfold | backend/src/automation/playwright.js:165-178 | one round of the loop: check the token, announce, run, then complete or stop |
| Playwright.RunSteps | backend/src/automation/playwright.js:165-178 | the loop computes exactly the log and end of the step specification StepsFrom |
| Playwright.RunPlaywrightWorkflow | backend/src/automation/playwright.js:142-197 | the run's log and outcome are those of the run specification, including launch failure and the `finally` close |
| Playwright.RunEnding | backend/src/automation/playwright.js:180-195 | after the loop, "Workflow execution completed" (also after a cancel) or "Workflow error" and a rethrow, then "Browser closed" unless kept open or the close failed |
| Playwright.CancelledBeforeStarting | backend/src/automation/playwright.js:149-152 | a token cancelled at the start launches nothing, logs one entry and returns |
| Playwright.Started | backend/src/automation/playwright.js:173 | the step numbers announced in a log, empty iff no step is announced |
| Playwright.StartedConcat | backend/src/automation/playwright.js:173 | the announcements of a joined log are those of its parts, in order |
| Playwright.RunnersAreQuiet | backend/src/automation/playwright.js:205-282 | neither step runner announces a step, and each logs exactly the error entry of a step it rethrows |
| Playwright.Numbers | backend/src/automation/playwright.js:165 | the consecutive step numbers `lo .. hi-1` |
| Playwright.StartedAfterSuccess | backend/src/automation/playwright.js:173-177 | a completed step followed by later steps started in order announces consecutive numbers |
| Playwright.StartedOfStep | backend/src/automation/playwright.js:173-175 | a quiet step's entries announce only that step |
| Playwright.StartsInOrderAfterSuccess | backend/src/automation/playwright.js:173-177 | a completed step keeps the "announced in order" property |
| Playwright.StartsInOrderAtFailure | backend/src/automation/playwright.js:175 | a failed step is the last one announced |
| Playwright.StepsRunInOrder | backend/src/automation/playwright.js:165-178 | steps are announced as 1, 2, … in index order, each once, as many as the loop started, and none after a cancel or a failure |
| Playwright.LoopEndCause | backend/src/automation/playwright.js:165-178 | the loop ends early only at a check that saw the cancel flag, or at a step whose run failed with that message |
| Playwright.FailureStopsLoop | backend/src/automation/playwright.js:175-281 | a failing step's error entry is the loop's last entry: no later step runs and there is no retry |
| Playwright.AllStepsComplete | backend/src/automation/playwright.js:165-178 | when no check sees a cancel and every step succeeds, the loop runs to the end |
| Playwright.ScreenshotWorkflowFailsAsWritten | backend/src/automation/playwright.js:252-256 | as written, a run that reaches a screenshot step fails there whatever the page does |
| Playwright.ScreenshotReached | backend/src/automation/playwright.js:252-256 | the same from any starting step at or before the screenshot |
| WorkflowExecutor.NewWorkflow | backend/src/workflowExecutor.js:61-71 | a new workflow is `idle` with no last run. Description and steps default to empty |
| WorkflowExecutor.MergeWorkflow | backend/src/workflowExecutor.js:117-124 | an update keeps id, status, last run and creation time. Name and profile change only to a non-empty value, the description takes any given value, and steps take any given array |
| WorkflowExecutor.MergeEmptyValues | backend/src/workflowExecutor.js:117-124 | an empty update only touches the time stamp, and an empty description clears the old one |
| WorkflowExecutor.IndexOfWorkflow | backend/src/workflowExecutor.js:107 | the lookup answers the first workflow with that id, or -1 |
| WorkflowExecutor.IdsOfMember | backend/src/workflowExecutor.js:95-97 | an id is stored iff the lookup finds it |
| WorkflowExecutor.RunBody | backend/src/workflowExecutor.js:256-277 | once the run settled: a cancelled run writes no status and logs nothing but still rethrows. Otherwise `completed` with the success entry, or `error` with "Execution error" and a rethrow. A vanished workflow rejects with the status failure |
| WorkflowExecutor.Settle | backend/src/workflowExecutor.js:194-204 | the outer catch guarded by the token: nothing for a cancelled run, as written otherwise |
| WorkflowExecutor.StoppedFailureWritesErrorAsWritten | backend/src/workflowExecutor.js:195-204 | as written, a stopped run whose step failed still ends in `error` with "Execution failed" |
| WorkflowExecutor.LiveRunSettles | backend/src/workflowExecutor.js:194-204 | a run that was not stopped ends `completed` with one success entry, or `error` with both error entries and the rethrown message |
| WorkflowExecutor.AfterWrites | backend/src/workflowExecutor.js:317-318 | no write leaves the workflow as it was. Otherwise the last status written wins with the time stamp set, and no other field changes |
| WorkflowExecutor.IndexOfSameIds | backend/src/workflowExecutor.js:312 | the lookup answers the same position in arrays with the same ids |
| WorkflowExecutor.WriteOnce | backend/src/workflowExecutor.js:310-326 | one more status write after earlier ones is the series extended by it |
| WorkflowExecutor.StopToken.constructor | backend/src/workflowExecutor.js:190 | a fresh token is not cancelled |
| WorkflowExecutor.StartKeepsCoherent | backend/src/workflowExecutor.js:187-191 | starting a run of a workflow that is not running, with a new token, keeps the supervisor invariant |
| WorkflowExecutor.Supervisor.constructor | backend/src/workflowExecutor.js:7-8 | an empty supervisor satisfying its invariant |
| WorkflowExecutor.Supervisor.GetWorkflow | backend/src/workflowExecutor.js:95-97 | answers a stored workflow with the id, or none when no workflow has it |
| WorkflowExecutor.Supervisor.CreateWorkflow | backend/src/workflowExecutor.js:59-80 | appends the new idle record, with nothing else changed. The invariant holds |
| WorkflowExecutor.Supervisor.UpdateWorkflow | backend/src/workflowExecutor.js:105-133 | refuses an unknown id and a `running` workflow without change. Otherwise it stores the merge. The invariant holds |
| WorkflowExecutor.Supervisor.DeleteWorkflow | backend/src/workflowExecutor.js:140-159 | refuses an unknown id and a `running` workflow without change. Otherwise it removes exactly that record. The invariant holds |
| WorkflowExecutor.Supervisor.UpdateWorkflowStatus | backend/src/workflowExecutor.js:310-326 | sets status and time stamp of the first record with the id, or fails with "Workflow not found" and changes nothing |
| WorkflowExecutor.Supervisor.ExecuteWorkflow | backend/src/workflowExecutor.js:168-214 | unknown workflow, already `running` or missing profile → the matching error, nothing started and nothing changed. Otherwise status `running` with `lastRun` set, a fresh uncancelled token registered, one start entry, and the running record returned. The invariant holds |
| WorkflowExecutor.Supervisor.StopWorkflow | backend/src/workflowExecutor.js:285-302 | no token → "Workflow is not running" and nothing changes. Otherwise the token is cancelled and the status becomes `idle`, while the token stays registered. The invariant holds |
| WorkflowExecutor.Supervisor.SettleBody | backend/src/workflowExecutor.js:256-277 | the status writes, entries and rejection of the run body are those of RunBody, and the map is untouched |
| WorkflowExecutor.Supervisor.FinishRun | backend/src/workflowExecutor.js:194-207 | the statuses and entries of Settle are applied, the run's own token is removed only if it is still registered, and the run is settled. The invariant holds |
| WorkflowExecutor.Supervisor.Release | backend/src/workflowExecutor.js:205-207 | the `finally` removes the id only while it still maps to this run's token |
| WorkflowExecutor.Supervisor.FinishRunAsWritten | backend/src/workflowExecutor.js:194-207 | as written: the outer catch is unguarded, and `finally` deletes the id whatever token it maps to |
| WorkflowExecutor.FinishKeepsCoherent | backend/src/workflowExecutor.js:194-207 | settling a run by FinishRun keeps the supervisor invariant |
| WorkflowExecutor.StaleFinishAsWritten | backend/src/workflowExecutor.js:206 | execute, stop, execute again, then the first run settles: as written the workflow stays `running` and can no longer be stopped |
| WorkflowExecutor.StaleFinishCorrected | backend/src/workflowExecutor.js:206 | the same sequence with FinishRun leaves the second run stoppable |
| StepEditor.KindOf | public/js/automation.js:46-203 | a type has a form configuration iff it is one of the six step types |
| StepEditor.Validate | public/js/automation.js:58-201 | a form that passes its validator holds every field its step type requires |
| StepEditor.Optional | public/js/automation.js:122-124 | an optional field is kept iff its text is not blank, and then as that text |
| StepEditor.WaitSeconds | public/js/automation.js:126-130 | `seconds` of a non-empty run of digits is their value, and 5 for an empty or non-numeric text |
| StepEditor.Generate | public/js/automation.js:117-133 | the wait form always produces `seconds` |
| StepEditor.NavigateFormValid | public/js/automation.js:58-61 | the navigate form is valid iff its url is not blank |
| StepEditor.ClickFormValid | public/js/automation.js:74-77 | the click form is valid iff its selector is not blank |
| StepEditor.TypeFormValid | public/js/automation.js:94-100 | the type form is valid iff selector and text are not blank |
| StepEditor.WaitFormValid | public/js/automation.js:117-136 | the wait form is valid iff its seconds value is a number above 0, since a blank selector is omitted |
| StepEditor.ScreenshotFormValid | public/js/automation.js:153-165 | the screenshot form is valid iff its filename is not blank |
| StepEditor.ExtractFormValid | public/js/automation.js:186-201 | the extract form is valid iff selector and variable name are not blank |
| StepEditor.WaitFormDefaults | public/js/automation.js:117-133 | the wait form keeps the selector iff it is not blank, and gives 5 seconds for a non-numeric text |
| StepEditor.Underscored | public/js/automation.js:601 | the replace keeps the length and turns every `:` and `.` into `_` |
| StepEditor.DropDefaults | public/js/automation.js:586-607 | a dropped block has every field its type requires. A screenshot's file name is `screenshot_` followed by the time stamp, with no `:` or `.` after the prefix |
| StepEditor.DroppedStepNeedsEditing | public/js/automation.js:586-607 | a freshly dropped block fails its validator except a screenshot, whose file name is filled in |
| StepEditor.Duplicated | public/js/automation.js:813-819 | a duplicate is one step longer, with the copy (new id) right after the original, the other steps in order, and the same steps otherwise |
| StepEditor.Deleted | public/js/automation.js:829 | `splice(index, 1)` removes the element at an index in range, and -1 removes the last |
| StepEditor.DeletedRemovesOne | public/js/automation.js:829 | removing keeps all other steps in order, and exactly one step is gone |
| StepEditor.Moved | public/js/automation.js:663-664 | the reorder is a permutation of the same length that puts the moved step at the target index |
| StepEditor.PermutedConfigured | public/js/automation.js:663-664 | reordering keeps every step configured |
| StepEditor.MovedBack | public/js/automation.js:663-664 | dragging a step back to where it came from restores the list |
| StepEditor.WithUrl | public/js/automation.js:506-527 | after the URL button, the first navigate step carries the url |
| StepEditor.WithUrlEffect | public/js/automation.js:506-527 | the URL button sets the url of the first navigate step only, keeping its other parameters and every other step, or prepends a navigate step when there is none |
| StepEditor.WithUrlIdempotent | public/js/automation.js:506-527 | pressing the button twice with the same url equals pressing it once |
| StepEditor.CheckWorkflow | public/js/automation.js:869-877 | save and test go ahead iff the name is not blank and there is a step, else the matching message in that order |
| StepEditor.WorkflowEditor.constructor | public/js/automation.js:6-43 | the demo workflow "Login Automation" with exactly the five demo steps and nothing open |
| StepEditor.DemoStepsForms | public/js/automation.js:6-43 | every demo step is configured, the first four pass their own validators, and the wait step, which has no `seconds`, does not |
| StepEditor.WorkflowEditor.Rename | public/js/automation.js:305-311 | only the name changes |
| StepEditor.WorkflowEditor.OpenStepModal | public/js/automation.js:759-776 | records the index. The form is shown iff the index holds a configured step |
| StepEditor.WorkflowEditor.CloseStepModal | public/js/automation.js:779-782 | clears the editing index only |
| StepEditor.WorkflowEditor.SaveStep | public/js/automation.js:785-810 | nothing without an open step. Valid generated parameters replace the step's and close the form with a success toast. Invalid ones give the error toast and change nothing |
| StepEditor.WorkflowEditor.HandleDrop | public/js/automation.js:572-620 | a known type appends one step with its blank parameters and opens its form, and any other type changes nothing |
| StepEditor.WorkflowEditor.HandleStepDrop | public/js/automation.js:650-671 | with distinct non-empty ids the step moves from the source to the target index, otherwise nothing changes. Either way the steps are a permutation |
| StepEditor.WorkflowEditor.DuplicateStep | public/js/automation.js:813-825 | an index in range duplicates the step with a success toast, and any other index changes nothing |
| StepEditor.WorkflowEditor.DeleteStep | public/js/automation.js:828-832 | the steps become those of `splice(index, 1)` |
| StepEditor.WorkflowEditor.OpenConfirmModal | public/js/automation.js:835-845 | a step delete records its index, and the action is recorded |
| StepEditor.WorkflowEditor.CloseConfirmModal | public/js/automation.js:848-851 | clears the recorded index only |
| StepEditor.WorkflowEditor.ConfirmAction | public/js/automation.js:854-864 | deletes the recorded step only for a step delete with an index other than -1, shows the demo note for a workflow delete, shows no toast in any other case, and always clears the index |
| StepEditor.WorkflowEditor.UpdateUrl | public/js/automation.js:506-533 | a non-blank field applies the trimmed url with a success toast, and a blank one changes nothing and shows the error toast |
| AutomationView.Swapped | src/renderer/src/views/Automation.js:716-718 | the exchange through a temporary swaps two positions, keeps the rest, and is a permutation |
| AutomationView.HandleStepTypeChange | src/renderer/src/views/Automation.js:631-664 | step i becomes a fresh step of the new type with that type's defaults and no error flags. The other steps and fields are untouched |
| AutomationView.DefaultParams | src/renderer/src/views/Automation.js:631-664 | the defaults are an object, empty exactly for a type outside navigate, click, type, screenshot and wait, with `milliseconds` a number and every other field a string |
| AutomationView.HandleStepParametersChangeAsWritten | src/renderer/src/views/Automation.js:666-691 | as written: a parse replaces only the parameters, keeping the flag and raw text, and a failed parse sets the flag and keeps the text |
| AutomationView.HandleStepParametersChange | src/renderer/src/views/Automation.js:666-691 | corrected: a parse gives the step the parsed parameters with the flag cleared |
| AutomationView.AddStep | src/renderer/src/views/Automation.js:693-701 | appends exactly one navigate step to `https://example.com` and keeps the others |
| AutomationView.RemoveStep | src/renderer/src/views/Automation.js:703-709 | an index in range removes just that step |
| AutomationView.RemoveAddedStep | src/renderer/src/views/Automation.js:693-709 | removing the step just added gives the form back |
| AutomationView.RemoveStepRemovesOne | src/renderer/src/views/Automation.js:703-709 | one step fewer, the others in order |
| AutomationView.MoveStepUp | src/renderer/src/views/Automation.js:711-721 | index 0 is a no-op, and any other index swaps with the one before. A permutation |
| AutomationView.MoveStepDown | src/renderer/src/views/Automation.js:723-733 | the last index is a no-op, and any other index swaps with the one after. A permutation |
| AutomationView.MoveUpThenDown | src/renderer/src/views/Automation.js:711-733 | moving up at i, then down at i-1, restores the form |
| AutomationView.MoveDownThenUp | src/renderer/src/views/Automation.js:711-733 | moving down at i, then up at i+1, restores the form |
| AutomationView.ValidateForm | src/renderer/src/views/Automation.js:735-760 | Ok iff no step is flagged, the name and profile are non-empty and there is a step. Otherwise the alert of the first failing check, in that order |
| AutomationView.SameFlagsSameValidation | src/renderer/src/views/Automation.js:735-760 | two forms with the same name and profile whose steps are flagged alike validate alike, whatever else the steps hold |
| AutomationView.CleanSteps | src/renderer/src/views/Automation.js:767-770 | submitting keeps only type and parameters of each step, same length and order |
| AutomationView.FailedParseKeepsSubmission | src/renderer/src/views/Automation.js:679-690 | text that does not parse changes nothing submitted and blocks validation |
| AutomationView.CleanStepsOfSwap | src/renderer/src/views/Automation.js:716-770 | reordering steps reorders the submitted steps the same way |
| AutomationView.FlagSticksAsWritten | src/renderer/src/views/Automation.js:671-688 | as written, after a failed parse a good parse leaves the step flagged, so the form cannot be submitted until that step's type is chosen again or the step is removed |
| AutomationView.ParseAfterFailureClears | src/renderer/src/views/Automation.js:671-688 | with the corrected handler, a good parse after a failure unflags the step |
| AutomationView.TypeChangeClearsFlag | src/renderer/src/views/Automation.js:657-660 | choosing a type again clears the flag, so an otherwise complete form validates |
| AutomationView.GetStepTypeLabel | src/renderer/src/views/Automation.js:846-856 | a known type gets a label different from its name, and any other type is shown as is |
| AutomationView.LabelsDiffer | src/renderer/src/views/Automation.js:846-856 | the six types have six different labels |

## Left out

- Persistence: `initProfiles`/`saveProfiles`, `initProxies`/`saveProxies` and `initWorkflows`/`saveWorkflows` read and write JSON files. A save is a no-op here and a failed save is not modelled.
- `launchBrowser` and every `page.*`, `browser.*` and `context.*` call are Playwright. A launch or a page command is an input (`LaunchOutcome`, `LaunchReply`, `DriverReply`), and the `disconnected` handler is CloseProfile itself.
- The network probe: `http(s).request`, `SocksClient` and the 10-second `setTimeout` race. Whichever event settles the probe first is the input `ProbeEvent`, and timer clean-up is not expressible. The test URL is parsed once into constants.
- Promise interleaving: each `await` is atomic, with two exceptions. A background run is split into ExecuteWorkflow and a later FinishRun, and testProxy into BeginTest and FinishTest around the probe, so those interleavings are explored as call sequences.
- ProfileManager.ProfileRegistry.LaunchProfile: the `await launchBrowser` between marking the profile active and `activeProfiles.set` is atomic. A closeProfile during the launch, after which the map holds a browser for an inactive profile, is not modelled.
- ProxyManager.FinishTestAsWritten: requires the stale index to be at most the array's length. Several deletes during one probe can push it further, and the holes such a write leaves in a JavaScript array are not modelled.
- Base64.Utf8: Dafny characters are Unicode scalar values, so a string holding a lone surrogate, which `Buffer.from` encodes as the three bytes EF BF BD, cannot be expressed.
- The URL button of the web page gets one more click listener each time its field is set up. One click then applies the url and shows the toast once per listener. The model applies it once, and StepEditor.WithUrlIdempotent shows the steps come out the same however often it is applied.
- The polls of the cancel flag that the step loop sees are an input, `polls`. They are not tied to the Supervisor's token object, and out-of-band cancellation between two checks is not modelled.
- The unhandled rejection of the outer catch's own `updateWorkflowStatus` call (line 197 is not awaited) is not modelled, because it only reaches the process's unhandled-rejection handler.
- The workflow path launches its own browser without the profile's proxy and never consults `activeProfiles`. The model follows the code and passes no proxy. `keepBrowserOpen` is a parameter, and the executor never sets it.
- `Number()` and `parseInt` are modelled for an optional sign and decimal digits only. Hex, exponents, fractions and `Infinity` are not. Ports are kept as text, as the records store them.
- No floating point: the zoom stepping of the web page and its diagram geometry are left out.
- `JSON.parse` of the parameter text is an input `Option<Json>`, and `JSON.stringify` for display is not modelled.
- Rendering, DOM events, `alert` and toasts beyond their title and message are not modelled. The same goes for the random run outcome of `testWorkflow` and the demo-only `createNewWorkflow`.
- Log entries carry messages as constructors of `Message`. The per-entry `timestamp` and `workflowId` are not modelled.
- `closeAllProfiles` iterates the map's insertion order. The model closes the ids in any order, and the result is the same for every order.
- `stepTypeConfigs[stepType]` also finds inherited `Object.prototype` names such as `constructor`. The model treats only the six own keys as configured.
- A parameter whose value is a number where the validator calls `.trim()` throws in the page. The model counts such parameters as invalid.
- The renderer's updaters moveStepUp, moveStepDown, handleStepTypeChange and handleStepParametersChange require `index < |steps|`, because the index always comes from the rendered list of steps. AutomationView.MoveStepUp, AutomationView.MoveStepDown, AutomationView.HandleStepTypeChange, AutomationView.HandleStepParametersChange and AutomationView.HandleStepParametersChangeAsWritten do not model an index outside the list.
- StepEditor.WorkflowEditor.HandleStepDrop: requires the recorded source index to be a position of the list, because it is the position of a rendered block. A drag from the sidebar, which carries no index, is the `None` case.
- StepEditor.WaitSeconds: uses the limited `Number`/`parseInt` of `JsText`, so it does not cover texts such as `1e3` or `0x10`.
- `getAllProfiles`, `getAllProxies` and `getAllWorkflows` only return the arrays. They are the class fields themselves.

## Findings

| source | as written | input that shows it | evidently intended | confidence | as-written member | corrected member |
|---|---|---|---|---|---|---|
| backend/src/automation/playwright.js:252-256 | the screenshot branch calls `path.join` and `fs.mkdir`, but the file never requires `path` or `fs`, so the branch throws a ReferenceError before it reaches the page | any workflow with a screenshot step that is reached | the screenshot is taken and "Screenshot saved to" is logged | not executed | Playwright.ExecuteStepAsWritten, Playwright.ScreenshotAlwaysFailsAsWritten, Playwright.ScreenshotWorkflowFailsAsWritten | Playwright.ExecuteStep, Playwright.ScreenshotSucceedsWhenDriverDoes |
| backend/src/workflowExecutor.js:194-207 | the `finally` of a run deletes `runningWorkflows[id]` whatever token it now holds, and the outer `catch` writes `error` even for a stopped run | execute `w`, stop `w`, execute `w` again, then the first run settles | a settling run removes only its own token, and a stopped run stays as the stop left it | not executed | WorkflowExecutor.Supervisor.FinishRunAsWritten, WorkflowExecutor.StaleFinishAsWritten | WorkflowExecutor.Supervisor.FinishRun, WorkflowExecutor.StaleFinishCorrected |
| backend/src/proxyManager.js:169-195 | testProxy keeps the index it found before the probe and writes the record back there after it, though a delete during the probe moves every later record down one | add `a`, `b` and `c`, test `b`, delete `a` before the probe settles | the result lands in the record under test, no other record is overwritten, and a record deleted during the probe stays deleted | not executed | ProxyManager.FinishTestAsWritten, ProxyManager.StaleIndexAsWritten | ProxyManager.ProxyTable.FinishTest, ProxyManager.StaleIndexCorrected |
| src/renderer/src/views/Automation.js:666-690 | a successful parse spreads the old step, so `_parametersError` and `_parametersText` set by an earlier failed parse stay | type `{` into a step's parameters, then `{}` | once the text parses, the step is no longer flagged and the form can be submitted | not executed | AutomationView.HandleStepParametersChangeAsWritten, AutomationView.FlagSticksAsWritten | AutomationView.HandleStepParametersChange, AutomationView.ParseAfterFailureClears |
