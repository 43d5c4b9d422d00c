# PharmaLens core, modelled in Dafny

PharmaLens is a drug-repurposing research tool. A React client sends a drug name
and a privacy mode to a Node gateway. The gateway fans the query out to AI
agents. A Python engine picks the language model for each mode: "secure" means
the on-premise Llama 3 model, "cloud" means hosted GPT-4. This project models
the deterministic logic of that system and proves properties of it:

- **PrivacyToggle** (`privacy_toggle.dfy`): the engine's `PrivacyManager`. It
  maps a mode string and two enable flags to the cloud or the local model
  configuration, falling back to the other backend when the requested one is
  disabled. The manager is a value: its flags are fixed when it is built and
  no operation can change them. The two private methods call each other; the
  model proves that this terminates with at most one fallback hop when one
  backend is enabled. A second model of the same functions makes the Python
  call stack explicit and shows that they recurse forever when both backends
  are disabled (see Findings).
- **ResearchContext** (`research_context.dfy`): the client's shared state, as
  a class with fields `privacyMode`, `currentResearch` and `researchHistory`.
  The history keeps the ten most recent entries, newest first.
- **ResearchDashboard** (`research_dashboard.dfy`): the dashboard page, as a
  class. It validates the trimmed drug name. It moves the four agent cards from
  idle to thinking, then to completed (one at a time, by name) or to error. It
  keeps the `isLoading`, `error` and `results` state. `handleSubmit` is split
  at its `await` into `StartSubmit` and `FinishSubmit`, because React renders
  the state in between; `HandleSubmit` runs both. The call to
  `researchService.analyze` is a parameter: the response data, or the rejection
  value found at `err.response?.data?.error`.
- **Navbar**, **AgentStatusCard**, **RoiCalculator** (`navbar.dfy`,
  `agent_status_card.dfy`, `roi_calculator.dfy`): the small total mappings
  these components compute. They are the privacy toggle and its indicators,
  the status-to-card table with its idle fallback, and the
  recommendation-to-style switch with its "Review" default.
- **Values** (`values.dfy`): JavaScript values with their truthiness,
  property access, and `String.prototype.trim` over the ECMAScript white-space
  and line-terminator code points.

The dashboard code drives four agents (Clinical, Patent, Market, Vision), and
the model uses those four. How the gateway dispatches a query to the agents is
not in the modelled code: `server/src/index.js` only mounts
`./routes/researchRoutes` (lines 16 and 63), and that file is not part of this
model.

## Model

| member | source | states |
|---|---|---|
| `Values.Trim` | client/src/pages/ResearchDashboard.jsx:52 | `drugName.trim()` is empty exactly when every character is JavaScript white space. The result is a slice of the input with only white space before and after it in the input; a non-empty result has no white space at either end. |
| `Values.TrimStart` | client/src/pages/ResearchDashboard.jsx:52 | The leading-white-space pass returns a suffix of the input. Everything it drops is white space, and a non-empty result starts with a non-white-space character. |
| `Values.TrimEnd` | client/src/pages/ResearchDashboard.jsx:52 | The trailing-white-space pass returns a prefix of the input. Everything it drops is white space, and a non-empty result ends with a non-white-space character. |
| `Values.Truthy` | client/src/components/dashboard/ROICalculator.jsx:24 | A value is falsy exactly when it is undefined, null, false, 0 or the empty string; `if (!data)` and the `&&` guards test that. |
| `Values.Property` | client/src/components/dashboard/ROICalculator.jsx:64 | Property access on a parsed JSON value gives the object's own field when it has one, and `undefined` otherwise. |
| `PrivacyToggle.CloudConfig` | ai_engine/app/core/privacy_toggle.py:62-81 | `_get_cloud_config` returns the cloud profile when cloud is enabled, and the local profile otherwise. This needs one enabled backend; the proof uses the recursive call's contract. |
| `PrivacyToggle.LocalConfig` | ai_engine/app/core/privacy_toggle.py:83-102 | `_get_local_config` returns the local profile when local is enabled, and the cloud profile otherwise. |
| `PrivacyToggle.GetLlmConfig` | ai_engine/app/core/privacy_toggle.py:47-60 | Returns the requested backend's profile when that backend is enabled, and the other backend's profile otherwise. Only the exact string "secure" requests local. |
| `PrivacyToggle.ValidateMode` | ai_engine/app/core/privacy_toggle.py:104-118 | True exactly for "secure" with local enabled and for "cloud" with cloud enabled. Any other string gives false. |
| `PrivacyToggle.GetAvailableModes` | ai_engine/app/core/privacy_toggle.py:120-125 | The map's keys are exactly "cloud" and "secure", and each value agrees with `validate_mode`. |
| `PrivacyToggle.SecureWithBothEnabled` | ai_engine/app/core/privacy_toggle.py:89-102 | With both flags on, "secure" gets provider local, on_premise residency, hipaa_compliant privacy, 2048 max tokens, no multi-modal, an 8192-token window, and the configured local model and path. |
| `PrivacyToggle.CloudWithBothEnabled` | ai_engine/app/core/privacy_toggle.py:68-81 | With both flags on, "cloud" gets provider openai, cloud residency, standard privacy, 4096 max tokens, multi-modal, a 128000-token window, and the configured OpenAI model and key. |
| `PrivacyToggle.NonSecureModesTakeCloudPath` | ai_engine/app/core/privacy_toggle.py:57-60 | Every mode string other than "secure", unknown ones included, is answered exactly as "cloud" is. |
| `PrivacyToggle.CloudFallsBackToLocal` | ai_engine/app/core/privacy_toggle.py:64-66 | With cloud disabled and local enabled, every request gets the local profile. |
| `PrivacyToggle.SecureFallsBackToCloud` | ai_engine/app/core/privacy_toggle.py:85-87 | With local disabled and cloud enabled, a "secure" request gets the OpenAI profile with cloud residency. |
| `PrivacyToggle.SecureStaysOnPremiseIff` | ai_engine/app/core/privacy_toggle.py:83-102 | A "secure" request is served on premise if and only if the local backend is enabled. |
| `PrivacyToggle.ValidatedModeServedDirectly` | ai_engine/app/core/privacy_toggle.py:104-118 | A mode that `validate_mode` accepts is served by the backend it names, with no fallback. |
| `PrivacyToggle.UnknownModeRejectedButServed` | ai_engine/app/core/privacy_toggle.py:104-118 | A mode other than "secure" or "cloud" fails `validate_mode`, yet `get_llm_config` still serves it by the cloud path. |
| `PrivacyToggle.AtMostOneFallbackHop` | ai_engine/app/core/privacy_toggle.py:57-87 | With one backend enabled, the code as written returns within three stack frames (at most one fallback hop), with `GetLlmConfig`'s result. |
| `PrivacyToggle.BothDisabledRecursesForever` | ai_engine/app/core/privacy_toggle.py:62-87 | With both flags off, the two private methods as written exhaust any stack depth without returning. |
| `PrivacyToggle.BothDisabledNeverReturns` | ai_engine/app/core/privacy_toggle.py:47-87 | With both flags off, `get_llm_config` as written never returns, for any mode and any stack depth. |
| `PrivacyToggle.CloudConfigAsWritten` | ai_engine/app/core/privacy_toggle.py:62-81 | `_get_cloud_config` with the Python stack depth made explicit: whenever it returns, it returns the profile `CloudConfig` gives. It fails only with no stack left, with one frame left while cloud is disabled, or with both backends disabled. |
| `PrivacyToggle.LocalConfigAsWritten` | ai_engine/app/core/privacy_toggle.py:83-102 | `_get_local_config` with the stack depth explicit: whenever it returns, it returns the profile `LocalConfig` gives. It fails only with no stack left, with one frame left while local is disabled, or with both backends disabled. |
| `PrivacyToggle.GetLlmConfigAsWritten` | ai_engine/app/core/privacy_toggle.py:47-60 | `get_llm_config` with the stack depth explicit: a result means some backend is enabled and equals `GetLlmConfig`'s. With three or more frames it fails only when both backends are disabled. |
| `PrivacyToggle.ResolveConfig` | ai_engine/app/core/privacy_toggle.py:47-87 | Corrected entry point. It gives an error exactly when both backends are disabled. Otherwise it returns `get_llm_config`'s configuration, an openai or local profile: the requested backend's when it is enabled, the other one's when it is not. |
| `ResearchContext.Stamped` | client/src/context/ResearchContext.jsx:27 | The stored entry has the record's keys plus `timestamp`. `timestamp` holds the given time, and every other field keeps its value. |
| `ResearchContext.Prepended` | client/src/context/ResearchContext.jsx:26-29 | The new entry is at index 0. The length is min(old length, 9) + 1, so at most 10. Index i >= 1 holds the old entry at i - 1. |
| `ResearchContext.HistoryIsNewestFirst` | client/src/context/ResearchContext.jsx:25-30 | After any sequence of additions to an empty history, it holds the min(n, 10) most recent entries, newest first. |
| `ResearchContext.DropsOldest` | client/src/context/ResearchContext.jsx:28 | From a history of nine or more entries, an addition yields exactly ten: the new entry, then the old first nine. |
| `ResearchContext.ResearchProvider.constructor` | client/src/context/ResearchContext.jsx:12-20 | Initial state: privacy mode "cloud", no current research (null), empty history. |
| `ResearchContext.ResearchProvider.SetPrivacyMode` | client/src/context/ResearchContext.jsx:14 | Sets the privacy mode and nothing else. |
| `ResearchContext.ResearchProvider.SetCurrentResearch` | client/src/context/ResearchContext.jsx:17 | Sets the current research and nothing else. |
| `ResearchContext.ResearchProvider.AddToHistory` | client/src/context/ResearchContext.jsx:25-30 | The history becomes the stamped record prepended to the old history, bounded to 10. The mode and current research do not change. |
| `ResearchContext.ResearchProvider.ClearHistory` | client/src/context/ResearchContext.jsx:35-37 | The history becomes empty whatever it held, so a second call changes nothing. Nothing else changes. |
| `ResearchDashboard.WithStatus` | client/src/pages/ResearchDashboard.jsx:62-65 | The same list with the same length, order, names and icons; only each entry's status is replaced. |
| `ResearchDashboard.WithStatusFor` | client/src/pages/ResearchDashboard.jsx:75-77 | Entries with the given name get the new status; every other entry is unchanged. |
| `ResearchDashboard.CompletedInOrder` | client/src/pages/ResearchDashboard.jsx:72-78 | The completion loop keeps the list's length, names and icons, and the only status it ever sets is completed. |
| `ResearchDashboard.CompletedInOrderMarksVisited` | client/src/pages/ResearchDashboard.jsx:72-78 | After the completion loop, exactly the agents whose names the loop visited are completed; every other entry is untouched. |
| `ResearchDashboard.CompletionCoversRoster` | client/src/pages/ResearchDashboard.jsx:38-78 | The loop's names equal the roster's names, so the loop completes every agent. |
| `ResearchDashboard.WithStatusKeepsRoster` | client/src/pages/ResearchDashboard.jsx:62-65 | A bulk status update keeps the four-agent roster, and two bulk updates equal the last one. |
| `ResearchDashboard.IsBlankName` | client/src/pages/ResearchDashboard.jsx:52 | `!drugName.trim()` holds exactly when every character of the name is JavaScript white space. |
| `ResearchDashboard.SubmitDisabled` | client/src/pages/ResearchDashboard.jsx:135 | The button is disabled if and only if loading, or the drug name is all white space. |
| `ResearchDashboard.DashboardStatusesHaveCards` | client/src/components/dashboard/AgentStatusCard.jsx:11-43 | Every status the dashboard assigns is a key of the card table, so a dashboard agent never gets the fallback. |
| `ResearchDashboard.Dashboard.constructor` | client/src/pages/ResearchDashboard.jsx:34-43 | Initial state: empty name, not loading, null result and error, and the four agents Clinical, Patent, Market and Vision, all idle. |
| `ResearchDashboard.Dashboard.SetDrugName` | client/src/pages/ResearchDashboard.jsx:127 | Sets the name and nothing else. |
| `ResearchDashboard.Dashboard.StartSubmit` | client/src/pages/ResearchDashboard.jsx:49-65 | A blank name sets the "Please enter..." error and changes nothing else. Otherwise: loading, error and results null, every agent thinking, and a request carrying the untrimmed name and the mode. |
| `ResearchDashboard.Dashboard.FinishSubmit` | client/src/pages/ResearchDashboard.jsx:67-90 | On response: the agents are completed in loop order, ending all completed, and results become the data. On rejection: the server's error if truthy, else "Failed to process research request", and every agent in error. Loading ends either way. |
| `ResearchDashboard.Dashboard.HandleSubmit` | client/src/pages/ResearchDashboard.jsx:49-91 | The whole submit, for a blank name, a response, or a rejection. It gives the final name, loading, error, result and agent states, and the request sent. |
| `ResearchDashboard.Dashboard.HandleReset` | client/src/pages/ResearchDashboard.jsx:96-104 | Name empty, result and error null, every agent idle, loading unchanged. |
| `ResearchDashboard.Dashboard.IsSubmitDisabled` | client/src/pages/ResearchDashboard.jsx:135 | The submit-disabled condition evaluated on the page's current state. |
| `Navbar.Toggle` | client/src/components/layout/Navbar.jsx:31-34 | The result is always "secure" or "cloud". It is "cloud" exactly when the mode was "secure". |
| `Navbar.IsSecureMode` | client/src/components/layout/Navbar.jsx:36 | Secure mode is the exact string "secure"; it is the one mode the switch turns into "cloud", and toggling it twice gives it back. |
| `Navbar.View` | client/src/components/layout/Navbar.jsx:36-150 | `aria-checked`, the HIPAA badge and the "Local Secure Mode" label each hold exactly when the mode is "secure"; otherwise the badge reads GPT-4 Enabled. |
| `Navbar.ToggleTwice` | client/src/components/layout/Navbar.jsx:32 | Toggling "secure" or "cloud" twice gives it back. |
| `Navbar.ToggleTwiceFromUnknown` | client/src/components/layout/Navbar.jsx:32 | Any other value toggles to "secure", then to "cloud". It is never restored. |
| `Navbar.ToggleFlipsView` | client/src/components/layout/Navbar.jsx:31-99 | Every toggle flips `aria-checked` and changes the badge. |
| `Navbar.FlipMenu` | client/src/components/layout/Navbar.jsx:115 | The mobile menu button always changes the open state. |
| `Navbar.FlipMenuTwice` | client/src/components/layout/Navbar.jsx:115 | Two presses restore the open state. |
| `AgentStatusCard.ConfigFor` | client/src/components/dashboard/AgentStatusCard.jsx:11-43 | A table status gets its own entry. Any other status gets the idle entry. The result is always one of the table's entries. |
| `AgentStatusCard.SpinClass` | client/src/components/dashboard/AgentStatusCard.jsx:63 | The spin class is present if and only if the status is "thinking". |
| `AgentStatusCard.StatusLabels` | client/src/components/dashboard/AgentStatusCard.jsx:11-43 | idle shows Standby, thinking shows Analyzing..., completed shows Complete, error shows Error. Any other status looks like idle. |
| `AgentStatusCard.LabelsIdentifyStatus` | client/src/components/dashboard/AgentStatusCard.jsx:11-41 | No two table statuses share a label. |
| `RoiCalculator.StyleFor` | client/src/components/dashboard/ROICalculator.jsx:27-62 | The label is always one of Strong Buy, Buy, Hold or Review. It is Strong Buy, Buy or Hold exactly for the strings STRONG_BUY, BUY or HOLD, and Review for every other value. TrendingUp goes with the two buys, Target with Hold, AlertTriangle with Review. |
| `RoiCalculator.Render` | client/src/components/dashboard/ROICalculator.jsx:23-64 | Nothing is rendered exactly when the data is falsy. Otherwise the card is styled by the data's recommendation and shows the thesis exactly when that field is truthy. |
| `RoiCalculator.MissingRecommendationIsReview` | client/src/components/dashboard/ROICalculator.jsx:53-64 | Market data with no recommendation field renders with the Review style. |

## Left out

- Dispatch of a query to the agents (concurrency, timeouts, retries, aggregation): it is presumably behind `./routes/researchRoutes`, which `server/src/index.js` mounts (lines 16 and 63); that file is not part of this model.
- `server/src/index.js`: Express middleware, CORS and security headers, request logging, `listen` and signal handlers are I/O plumbing.
- The agents' `analyze` methods (clinical, patent, vision) and the package re-exports: their values come from random numbers, sleeps, the clock and float rounding, so they have no deterministic behaviour to state.
- The `settings` values (model names, API key, model path, enable flags) are parameters of the manager; where they are read from is not modelled. The structlog logging is dropped.
- `researchService.analyze` is a parameter of `FinishSubmit` and `HandleSubmit`. The 300 ms `setTimeout` delays between card updates, `async`/`await` and `console.error` are dropped. Only the order of the status updates is kept, and React's batching of state setters is not modelled.
- `new Date().toISOString()` in `addToHistory` is a parameter (the timestamp string).
- `formatCurrency`: `Intl.NumberFormat` and float multiplication.
- All JSX markup, styling and icons beyond the values the modelled functions choose; react-router in `client/src/App.jsx`; the placeholder `KnowledgeGraph.jsx`.
- `ResearchContext.Stamped`: a research value that is not a plain object is not modelled. Spreading a string or an array into an object would add index keys.
- `AgentStatusCard.ConfigFor`: a status naming an `Object.prototype` member (such as "toString") reads that member instead of falling back. This is not modelled, and the dashboard never assigns such a status.
- `Values.Property`: only own fields of parsed JSON objects are modelled. Inherited `Object.prototype` members (such as `toString`) and built-in properties such as a string's or an array's `length` are not; the modelled components only read fields of server responses.
- `Values.Truthy`: numbers are reals, so `NaN`, which is falsy, is not modelled.
- `ResearchDashboard.Dashboard.FinishSubmit`: the rejection value is whatever JSON value the server sent; a rejection without an HTTP response, such as a network error, is given as `JUndefined`.

## Findings

| source | as written | input that shows it | evidently intended | confidence | as-written member | corrected member |
|---|---|---|---|---|---|---|
| ai_engine/app/core/privacy_toggle.py:62-87 | `_get_cloud_config` and `_get_local_config` each call the other when their own backend is disabled. There is no case for both being disabled. | CLOUD_ENABLED and LOCAL_ENABLED both false, then `get_llm_config("cloud")` (or any mode): the calls alternate until Python raises RecursionError | report that no backend is enabled | high; not executed | `PrivacyToggle.BothDisabledNeverReturns` | `PrivacyToggle.ResolveConfig` |
