# BidCraft front end — a Dafny model

This project models the front end of BidCraft. BidCraft turns a client's requirements document (SRS/RFP) into a bid proposal. The path through the front end:
1. The user uploads a company profile and an SRS.
2. They review the extracted SRS and approve an overview with the raw text stripped.
3. They watch a processing timeline while the proposal is generated.
4. They read the structured proposal.

A profile page, route gating, an onboarding page with a capped sector selection, and a demonstration workstation make up the rest of the core.

The model has three parts:
- A shared JSON value type (`JsonValue`). It carries the pieces of JavaScript semantics the code relies on: truthiness, `||`, `&&`, `??`, `?.`, `Object.entries` and spread enumeration, `String()` of a primitive, and `delete`.
- Pure modules for the rendering and derivation code. A render that would throw a `TypeError` is the outcome `Crash`. Examples: `.map` on a truthy non-array, or a property read on a `null` element.
- Classes for the components that change state step by step. Each has a `Valid()` invariant tying its displayed fields to the phase of its asynchronous work. I/O completions are event methods: token obtained, progress tick, upload settled, dwell elapsed, interval tick, timeout fired.

`JSON.parse` is the parameter `parse: string -> Option<Json>`, which is `None` where parsing throws. Clocks, timers, the network, Firebase authentication and the browser are not modelled. Their results enter as method parameters or event calls.

Two behaviours of the code are worth stating plainly. The model follows the code in both:
- The approved overview in src/pages/Review/ReviewSummary.tsx:122-123 deletes `rawText` only when it is truthy. An empty raw text therefore stays in the overview: `ReviewSummary.EmptyRawTextKept`, `SrsUploadModal.ExtractedWithoutSrs`.
- On a failed generation the `catch` at src/pages/Processing/Processing.tsx:67-70 clears the interval id held by the first run of the effect. When the effect runs twice (mount, cleanup, mount), the second run's interval is not cleared, and the timeline goes on advancing: `Processing.EffectTwiceThenFail`.

Two parts of the model carry a correction recorded under "## Findings" instead of the code as written:
- the profile page's services chips (see `Profile.CompanyOf, Profile.View` under "## Left out");
- the workstation's analysis log, where `Pages.WorkstationPage` appends the lines in order (see `Pages.WorkstationPage.Tick` under "## Left out").

## Model

| member | source | states |
|---|---|---|
| JsonValue.OwnEntries | src/pages/Review/ReviewSummary.tsx:122 | an object enumerates its fields; an array or string gives one entry per element, a number, boolean or null none |
| JsonValue.RemoveKey | src/pages/Review/ReviewSummary.tsx:123 | after `delete`, the key is absent, every other key looks up as before, and exactly the other fields remain |
| JsonValue.Collect | src/pages/Proposal/ProposalResult.tsx:91-93 | a list of renders shows exactly when every element shows, element by element in order |
| JsonValue.ListOr | src/pages/Proposal/ProposalResult.tsx:146 | `(v \|\| []).map`: no items for a falsy value, the elements of an array, a crash for any other truthy value |
| JsonValue.NatToStringRoundTrip | src/pages/Proposal/ProposalResult.tsx:92 | the decimal numeral of `n` reads back as `n` |
| KeyLabel.ToUpper | src/pages/Review/ReviewSummary.tsx:62 | upper-casing keeps word characters word characters, leaves no lower-case letter, and changes nothing else |
| KeyLabel.Despace | src/pages/Review/ReviewSummary.tsx:62 | the first replacement keeps the length |
| KeyLabel.CapitalizeAt | src/pages/Review/ReviewSummary.tsx:62 | character `i` of the second replacement is upper-cased exactly when it is a word character not preceded by one |
| KeyLabel.FormatKeyAt | src/pages/Review/ReviewSummary.tsx:62 | each position of a label is the despaced character, upper-cased exactly at a word start |
| KeyLabel.FormatKeyShape | src/pages/Review/ReviewSummary.tsx:62 | a label has the key's length, no underscore, and no lower-case letter at a word start |
| KeyLabel.FormatKeyIdempotent | src/pages/Review/ReviewSummary.tsx:62 | formatting a label again changes nothing |
| KeyLabel.CapitalizeInsideWord | src/pages/Review/ReviewSummary.tsx:62 | inside a word run nothing is upper-cased |
| KeyLabel.FormatOneWord | src/pages/Review/ReviewSummary.tsx:62 | a single lower-case word only gets its first letter capitalised |
| KeyLabel.FormatKey | src/pages/Review/ReviewSummary.tsx:62 | a label has exactly the key's length; its characters are stated by FormatKeyAt and FormatKeyShape |
| SrsRenderer.RenderKeepsLeaves | src/pages/Review/ReviewSummary.tsx:37-69 | the rendered texts are exactly the value's primitive leaves, in order: none dropped, none invented |
| SrsRenderer.ChildKeepsLeaves | src/pages/Review/ReviewSummary.tsx:64 | an entry's or item's content shows exactly the leaves of its value |
| SrsRenderer.ItemsKeepLeaves | src/pages/Review/ReviewSummary.tsx:48-52 | list items together show exactly the leaves of the array's elements |
| SrsRenderer.FieldsKeepLeaves | src/pages/Review/ReviewSummary.tsx:60-67 | object entries together show exactly the leaves of the field values |
| SrsRenderer.TextLeafCount | src/pages/Review/ReviewSummary.tsx:37-69 | one text per non-null primitive leaf |
| SrsRenderer.RenderScalar | src/pages/Review/ReviewSummary.tsx:38-43 | null renders nothing; a primitive renders `String(data)` at the level's indent |
| SrsRenderer.RenderItemsAt | src/pages/Review/ReviewSummary.tsx:48-52 | item `i` of an array is the child rendering of element `i` |
| SrsRenderer.RenderFieldsAt | src/pages/Review/ReviewSummary.tsx:60-67 | entry `i` of an object is labelled with the formatted key `i` over the child rendering of its value |
| SrsRenderer.RenderArray | src/pages/Review/ReviewSummary.tsx:45-55 | an array renders a list at the level's indent, one item per element in order |
| SrsRenderer.RenderObject | src/pages/Review/ReviewSummary.tsx:57-69 | an object renders a block at the level's indent, one labelled entry per field in order |
| SrsRenderer.RenderIndented | src/pages/Review/ReviewSummary.tsx:39 | every node at depth `d` below level `l` is indented by `12 * (l + d)` |
| SrsRenderer.ChildIndented | src/pages/Review/ReviewSummary.tsx:50 | nested children are indented one level deeper |
| SrsRenderer.ItemsIndented | src/pages/Review/ReviewSummary.tsx:47-52 | every list item's nested rendering is one level deeper |
| SrsRenderer.FieldsIndented | src/pages/Review/ReviewSummary.tsx:59-66 | every entry's nested rendering is one level deeper |
| SrsRenderer.Render | src/pages/Review/ReviewSummary.tsx:37-70 | `null` renders nothing and every other value renders a node at the level's indent: a list exactly for an array, a block exactly for an object |
| SrsRenderer.Child | src/pages/Review/ReviewSummary.tsx:48-66 | a child is empty exactly for `null`, stringified in place exactly for a primitive, and otherwise a nested node at the child's level |
| SrsRenderer.RenderItems | src/pages/Review/ReviewSummary.tsx:48-52 | one list item per array element |
| SrsRenderer.RenderFields | src/pages/Review/ReviewSummary.tsx:60-67 | one labelled entry per object field |
| ReviewSummary.OverviewBase | src/pages/Review/ReviewSummary.tsx:122 | the copy is taken from the SRS when it is truthy, else from the whole extracted record |
| ReviewSummary.Srs | src/pages/Review/ReviewSummary.tsx:76 | `extracted?.srs \|\| null`: the truthy `srs` field, else `null` |
| ReviewSummary.ApprovedOverview | src/pages/Review/ReviewSummary.tsx:122-123 | the overview is an object with no truthy `rawText`; every other key is copied; a truthy `rawText` is absent, a falsy one stays |
| ReviewSummary.SrsCarriedUnchanged | src/pages/Review/ReviewSummary.tsx:122-123 | an SRS object without raw text is carried forward as it is |
| ReviewSummary.View | src/pages/Review/ReviewSummary.tsx:79-111 | "No document found" exactly when nothing truthy was extracted; a preview only for a truthy SRS |
| ReviewSummary.PreviewShowsOnlySrs | src/pages/Review/ReviewSummary.tsx:106-110 | the texts on screen are exactly the SRS's leaves, none where the SRS is falsy; the raw text is not among the preview's inputs |
| ReviewSummary.ReviewPage.constructor | src/pages/Review/ReviewSummary.tsx:90 | the page starts not submitting, nothing handed on |
| ReviewSummary.ReviewPage.Approve | src/pages/Review/ReviewSummary.tsx:118-125 | the first press sets `submitting` and hands on the approved overview; a later press changes nothing |
| ReviewSummary.ReviewPage.EditManually | src/pages/Review/ReviewSummary.tsx:114 | going back happens only while not submitting |
| ReviewSummary.ApproveTwice | src/pages/Review/ReviewSummary.tsx:119-120 | two presses approve once, with the derived overview |
| ReviewSummary.ScenarioLabel | src/pages/Review/ReviewSummary.tsx:62 | the key `requirements` is labelled "Requirements" |
| ReviewSummary.ScenarioPreview | src/pages/Review/ReviewSummary.tsx:37-69 | the scenario SRS renders one "Requirements" entry holding a list of the two bullets |
| ReviewSummary.ScenarioSrsSelected | src/pages/Review/ReviewSummary.tsx:76 | `extracted?.srs` selects the scenario's SRS |
| ReviewSummary.ScenarioTwoRequirements | src/pages/Review/ReviewSummary.tsx:106-110 | uploading `spec.pdf` with two requirements shows exactly "R1" and "R2" and no raw text |
| ReviewSummary.ScenarioOverview | src/pages/Review/ReviewSummary.tsx:122-124 | the scenario's approved overview is the SRS itself |
| ReviewSummary.EmptyRawTextKept | src/pages/Review/ReviewSummary.tsx:123 | an empty raw text is falsy and stays in the overview |
| Api.Percent | src/utils/api.ts:29 | the percentage is the integer nearest `100 * loaded / total`, within half a unit |
| Api.ProgressReport | src/utils/api.ts:27-31 | a percentage is reported exactly when the length is computable |
| Api.PercentBounds | src/utils/api.ts:29 | the percentage stays within 0..100, is 0 at the start and 100 at the end |
| Api.PercentMonotone | src/utils/api.ts:29 | more bytes sent never lower the percentage |
| Api.Complete | src/utils/api.ts:34-56 | resolves exactly on a 2xx status, with the parsed body or `{ok: true, raw}`; otherwise rejects with the parsed body or the "Upload failed" error |
| Api.SettleUpload | src/utils/api.ts:34-57 | an upload resolves exactly when the response arrived with a 2xx status; a network failure settles as a completion with status 0 and an empty body |
| Api.EmptySuccessResolvesEmptyObject | src/utils/api.ts:37-41 | an empty successful body resolves to `{}` |
| Api.NetworkFailureRejects | src/utils/api.ts:34-57 | a network failure always rejects, with the parsed empty body |
| Api.FailureMessageCarriesText | src/utils/api.ts:52 | the failure message names the status and ends with the body text |
| Api.FetchJson | src/utils/api.ts:3-11 | the parsed body, or the text itself as a string |
| Api.GenerateProposal | src/utils/api.ts:120-125 | succeeds exactly when the body parses; the error names the status and carries the text |
| Api.FetchAndGenerateAgree | src/utils/api.ts:120-125 | both readers give the same value when the body parses; only `generateProposal` throws on a non-JSON body |
| UploadProgressModal.View | src/components/UploadProgress/UploadProgressModal.tsx:62-68 | the modal renders exactly when open |
| UploadProgressModal.TitleSelection | src/components/UploadProgress/UploadProgressModal.tsx:72 | a non-empty title is shown as given, else the stage's title |
| UploadProgressModal.OneSubtext | src/components/UploadProgress/UploadProgressModal.tsx:73-77 | exactly one subtext line renders: the one of the stage |
| UploadProgressModal.BarAndSpinner | src/components/UploadProgress/UploadProgressModal.tsx:79-92 | the bar, of width `percent`, only while uploading; the spinner only while extracting; never both |
| UploadProgressModal.Defaults | src/components/UploadProgress/UploadProgressModal.tsx:67-82 | with the defaults: "Uploading...", "Uploading file — 0%", an empty bar |
| AppRoutes.Resolve | src/App.tsx:16-54 | nothing while loading; the login page at `/login`; a redirect without a user; the layout otherwise |
| AppRoutes.LayoutPage | src/App.tsx:28-47 | no inner page exactly for a path no route names; a gated path shows its own page when the profile is truthy and the company-profile page otherwise |
| AppRoutes.UngatedPages | src/App.tsx:32-47 | `/company-profile`, `/analytics`, `/history` and `/profile` each show their own page; an unknown path shows the layout with no page |
| AppRoutes.GatingOnCompanyProfile | src/App.tsx:28-46 | a gated path shows its page exactly when the company profile is truthy, else the company-profile page |
| AppRoutes.UngatedIgnoreProfile | src/App.tsx:32-47 | the ungated pages show the same screen whatever the profile, and never the empty layout |
| AppRoutes.CompanyProfilePresence | src/App.tsx:30 | the profile exists exactly when the backend user is an object with a truthy `companyProfile` |
| UseToggle.ToggleState.constructor | src/hooks/useToggle.ts:3-4 | the state starts at `initial` |
| UseToggle.ToggleState.On | src/hooks/useToggle.ts:5 | `on` sets the state |
| UseToggle.ToggleState.Off | src/hooks/useToggle.ts:6 | `off` clears the state |
| UseToggle.ToggleState.Toggle | src/hooks/useToggle.ts:7 | `toggle` negates the state |
| UseToggle.ToggleTwice | src/hooks/useToggle.ts:7 | toggling twice restores the state |
| UseToggle.OnTwice | src/hooks/useToggle.ts:5 | `on` is idempotent |
| UseToggle.OffTwice | src/hooks/useToggle.ts:6 | `off` is idempotent |
| UseToggle.DefaultIsOff | src/hooks/useToggle.ts:3 | without an initial value the toggle is off |
| SrsUploadModal.Extracted | src/components/SRSUpload/SRSUploadModal.tsx:72-78 | the record has exactly the file name, `resp.srs` when truthy else null, and `resp.rawText` when truthy else "" |
| SrsUploadModal.SrsUploadSheet.constructor | src/components/SRSUpload/SRSUploadModal.tsx:52-57 | the sheet starts idle: no file, not uploading, 0%, uploading stage, no modal |
| SrsUploadModal.SrsUploadSheet.OnFile | src/components/SRSUpload/SRSUploadModal.tsx:61-65 | a chosen file sets the name and starts uploading; no file changes nothing |
| SrsUploadModal.SrsUploadSheet.Fail | src/components/SRSUpload/SRSUploadModal.tsx:89-93 | a failure stops uploading and alerts |
| SrsUploadModal.SrsUploadSheet.TokenObtained | src/components/SRSUpload/SRSUploadModal.tsx:68-69 | a missing token fails before any upload; a token starts the request |
| SrsUploadModal.SrsUploadSheet.Tick | src/components/SRSUpload/SRSUploadModal.tsx:70 | a progress report sets the percentage and nothing else |
| SrsUploadModal.SrsUploadSheet.Settle | src/components/SRSUpload/SRSUploadModal.tsx:70-93 | a resolved upload builds the extracted record and shows the extracting modal at 100%; a rejection fails |
| SrsUploadModal.SrsUploadSheet.DwellElapsed | src/components/SRSUpload/SRSUploadModal.tsx:84-88 | after the dwell the modal hides, the review receives the extracted record, and the sheet closes |
| SrsUploadModal.SrsUploadSheet.ProgressModal | src/components/SRSUpload/SRSUploadModal.tsx:125 | the progress modal is open exactly while an upload or the extracting dwell runs, with the bar exactly in the uploading stage |
| SrsUploadModal.SrsUploadSheet.FileLine | src/components/SRSUpload/SRSUploadModal.tsx:108 | the file line is never empty, and names the file being uploaded |
| SrsUploadModal.SrsUploadSheet.StatusLine | src/components/SRSUpload/SRSUploadModal.tsx:109 | "PDF or DOCX" exactly when no upload is running |
| SrsUploadModal.ModalFollowsPhase | src/components/SRSUpload/SRSUploadModal.tsx:109-125 | while uploading, the modal shows the uploading stage with the bar at the current percentage |
| SrsUploadModal.DwellModal | src/components/SRSUpload/SRSUploadModal.tsx:80-125 | in the dwell the modal shows the extracting stage with the spinner and no bar |
| SrsUploadModal.IdleModalClosed | src/components/SRSUpload/SRSUploadModal.tsx:125 | when idle the modal is closed |
| SrsUploadModal.SuccessfulUpload | src/components/SRSUpload/SRSUploadModal.tsx:61-88 | a whole successful upload hands the review exactly the extracted record |
| SrsUploadModal.RejectedUpload | src/components/SRSUpload/SRSUploadModal.tsx:66-93 | a rejected upload ends idle with an alert and never reaches the extracting stage |
| SrsUploadModal.ExtractedWithoutSrs | src/components/SRSUpload/SRSUploadModal.tsx:72-78 | with no SRS, the approved overview is the record itself, with a truthy raw text dropped and an empty one kept |
| CompanyProfile.CompanyProfilePage.constructor | src/pages/Profile/CompanyProfile.tsx:112-116 | the page starts idle with no file, 0%, the uploading stage, no modal |
| CompanyProfile.CompanyProfilePage.OnFile | src/pages/Profile/CompanyProfile.tsx:123-128 | a chosen file sets the name and starts uploading |
| CompanyProfile.CompanyProfilePage.Fail | src/pages/Profile/CompanyProfile.tsx:152-159 | a failure stops uploading and alerts "Upload failed" |
| CompanyProfile.CompanyProfilePage.TokenObtained | src/pages/Profile/CompanyProfile.tsx:131-132 | a missing token fails before any upload |
| CompanyProfile.CompanyProfilePage.Tick | src/pages/Profile/CompanyProfile.tsx:133 | a progress report sets the percentage |
| CompanyProfile.CompanyProfilePage.Settle | src/pages/Profile/CompanyProfile.tsx:133-139 | only a resolved response with a truthy `ok` enters the extracting stage at 100%; anything else fails |
| CompanyProfile.CompanyProfilePage.DwellElapsed | src/pages/Profile/CompanyProfile.tsx:141-149 | after the dwell, whichever way the refresh went: the modal hides, the saved alert shows, and the page navigates home |
| CompanyProfile.CompanyProfilePage.StatusLine | src/pages/Profile/CompanyProfile.tsx:200-213 | without a non-empty file name the box shows "Tap to Upload Document"; with one, that prompt shows exactly when no upload is running |
| CompanyProfile.CompanyProfilePage.InlineBar | src/pages/Profile/CompanyProfile.tsx:204-208 | with a file chosen, the inline bar shows exactly while an upload runs, at the current percentage |
| CompanyProfile.PercentOnlyWhileUploading | src/pages/Profile/CompanyProfile.tsx:200-208 | the percentage text and bar appear exactly while uploading |
| CompanyProfile.UploadOnce | src/pages/Profile/CompanyProfile.tsx:123-160 | an upload ends home with the saved alert exactly when there is a token and a truthy `ok`; otherwise idle with one failure alert |
| AgentProgress.View | src/components/AgentProgress/AgentProgress.tsx:45-60 | one row per step with its title; the meta line exactly where it is truthy |
| AgentProgress.ActiveRowsArePrefix | src/components/AgentProgress/AgentProgress.tsx:53 | row `i` is active exactly when `i <= activeIndex`; the active rows are a prefix |
| AgentProgress.ActiveCountClamped | src/components/AgentProgress/AgentProgress.tsx:52-54 | the number of active rows is `activeIndex + 1`, clamped to 0..number of steps |
| AgentProgress.ActiveCount | src/components/AgentProgress/AgentProgress.tsx:53 | the active rows number at most the rows, and none exactly when no row is active |
| AgentProgress.DefaultActivatesFirst | src/components/AgentProgress/AgentProgress.tsx:47-53 | with the default index exactly the first row is active |
| Processing.Advance | src/pages/Processing/Processing.tsx:50 | a tick adds one step, saturating at the number of steps |
| Processing.AfterTicks | src/pages/Processing/Processing.tsx:50 | ticks never move `active` back and never past the number of steps |
| Processing.Subtitle | src/pages/Processing/Processing.tsx:82 | the subtitle names the state's file name, or "Uploaded document" when it is missing or empty |
| Processing.AfterTicksSaturates | src/pages/Processing/Processing.tsx:50 | `k` ticks from `start` reach `min(start + k, 5)` |
| Processing.ClearTimerCompletesTimeline | src/pages/Processing/Processing.tsx:63-65 | the ticks that fit before the clearing timer light every step |
| Processing.DisplayIndex | src/pages/Processing/Processing.tsx:83 | the timeline index is `active` clamped to the last step |
| Processing.ProcessingPage.constructor | src/pages/Processing/Processing.tsx:31-43 | the page starts at step 0 with no interval and no request |
| Processing.ProcessingPage.Effect | src/pages/Processing/Processing.tsx:45-66 | each run resets `active` and starts an interval; only the first run makes the request (or starts the clearing timer) |
| Processing.ProcessingPage.Cleanup | src/pages/Processing/Processing.tsx:72-74 | the cleanup clears its own run's interval |
| Processing.ProcessingPage.Tick | src/pages/Processing/Processing.tsx:50 | an interval firing advances `active` |
| Processing.ProcessingPage.Ticks | src/pages/Processing/Processing.tsx:50 | `k` firings advance `active` `k` times |
| Processing.ProcessingPage.ProposalSettled | src/pages/Processing/Processing.tsx:55-70 | success navigates to the result with `{result}`; failure clears the first run's interval |
| Processing.ProcessingPage.ClearTimerElapsed | src/pages/Processing/Processing.tsx:63-65 | the clearing timer clears the first run's interval |
| Processing.MountThenFail | src/pages/Processing/Processing.tsx:67-70 | a failure leaves no running interval, the timeline where it stopped, and no navigation |
| Processing.EffectTwiceThenFail | src/pages/Processing/Processing.tsx:52-54 | a re-run effect still makes one request, but the failure leaves the second interval running |
| Processing.MountWithoutOverview | src/pages/Processing/Processing.tsx:61-65 | without an overview no request is made and the timeline completes before its interval is cleared |
| Processing.AtMostOneRequest | src/pages/Processing/Processing.tsx:52-58 | at most one request, made exactly when the effect ran with a truthy overview |
| ProposalResult.ProposalOf | src/pages/Proposal/ProposalResult.tsx:38 | the proposal is the first truthy of `proposal`, `refinedProposal`, `rfp.generatedProposal` |
| ProposalResult.ReportHtmlOf | src/pages/Proposal/ProposalResult.tsx:39 | the report is `reportHtml`, else `rfp.reportHtml` |
| ProposalResult.RfpId | src/pages/Proposal/ProposalResult.tsx:49 | the displayed id is never falsy, and is "n/a" when neither `rfp._id` nor `rfp.id` is truthy |
| ProposalResult.Status | src/pages/Proposal/ProposalResult.tsx:52 | one of the two status texts, "Completed" exactly when `ok` is truthy |
| ProposalResult.MappingItem | src/pages/Proposal/ProposalResult.tsx:92 | a mapping row crashes exactly on a null entry; its label is never falsy: `requirement_id` when truthy, else `REQ-{i+1}` |
| ProposalResult.ComponentItem | src/pages/Proposal/ProposalResult.tsx:102-110 | a component crashes exactly when null; an object's label is never falsy; a description shows only for an object-typed component with a truthy one |
| ProposalResult.PhaseItem | src/pages/Proposal/ProposalResult.tsx:113-121 | a phase crashes exactly when null or when its truthy deliverables are not an array; its title is never falsy; the weeks suffix and the deliverables show exactly when truthy |
| ProposalResult.PricingOf | src/pages/Proposal/ProposalResult.tsx:124-133 | the currency line is never falsy; a present non-null total cost is shown as it is; the team line shows exactly for a truthy `team_composition` |
| ProposalResult.StructuredView | src/pages/Proposal/ProposalResult.tsx:56-157 | the preview crashes exactly when one of its sections throws; otherwise it carries the overview or "—", the mapping, components, phases, pricing, traceability, assumptions, exclusions, risks and credentials of the proposal, never shows a falsy overview text, and offers the export buttons exactly with a report |
| ProposalResult.TraceItem | src/pages/Proposal/ProposalResult.tsx:140 | a traceability line crashes exactly when its row is null; otherwise it shows the row's id, requirement, solution reference and status |
| ProposalResult.RiskItem | src/pages/Proposal/ProposalResult.tsx:152 | a risk line crashes exactly when its row is null; otherwise it shows the row's risk, impact and mitigation |
| ProposalResult.View | src/pages/Proposal/ProposalResult.tsx:27-231 | the no-result card exactly for a falsy result; only a structured preview can crash; a generated page carries the id and status and is structured exactly for a truthy object proposal |
| ProposalResult.MapItems | src/pages/Proposal/ProposalResult.tsx:91-93 | a mapped list shows when every row shows, row `i` from element `i` |
| ProposalResult.DashOrItems | src/pages/Proposal/ProposalResult.tsx:89-95 | "—" for a falsy or empty list, the rows of a non-empty array, a crash for a non-array unless its length is 0 |
| ProposalResult.ArrayItems | src/pages/Proposal/ProposalResult.tsx:67-70 | a list shows only for an array, one row per element |
| ProposalResult.ListItems | src/pages/Proposal/ProposalResult.tsx:146-147 | `(v \|\| []).map`: the rows of the elements, or a crash for a truthy non-array |
| ProposalResult.NumberedTruthy | src/pages/Proposal/ProposalResult.tsx:92 | a numbered default label such as `REQ-1` is truthy |
| ProposalResult.NoResultCard | src/pages/Proposal/ProposalResult.tsx:27-36 | "No proposal available" exactly when the result is falsy |
| ProposalResult.OneBranch | src/pages/Proposal/ProposalResult.tsx:42-231 | exactly one body: structured for a truthy object proposal, else the report, else the JSON dump |
| ProposalResult.PrimitiveProposalNotStructured | src/pages/Proposal/ProposalResult.tsx:42 | a string or number proposal is not structured |
| ProposalResult.RfpIdAndStatus | src/pages/Proposal/ProposalResult.tsx:49-52 | the id is `rfp._id`, else `rfp.id`, else "n/a"; status "Completed" exactly when `ok` is truthy |
| ProposalResult.MappingRows | src/pages/Proposal/ProposalResult.tsx:89-95 | "—" for no entries, else one row per entry labelled `requirement_id` or `REQ-{i+1}` |
| ProposalResult.NullMappingEntryCrashes | src/pages/Proposal/ProposalResult.tsx:91-92 | a null mapping entry aborts the render |
| ProposalResult.NonArrayMappingCrashes | src/pages/Proposal/ProposalResult.tsx:89-91 | a truthy non-array mapping with a non-zero length aborts the render |
| ProposalResult.ComponentLabel | src/pages/Proposal/ProposalResult.tsx:103-107 | a component label is the string, else `component_name`, else `name`, else `Component {i+1}` |
| ProposalResult.PhaseTitle | src/pages/Proposal/ProposalResult.tsx:115-118 | a phase title defaults to `Phase {i+1}`; the weeks suffix appears exactly for a truthy `duration_weeks` |
| ProposalResult.PricingFallbacks | src/pages/Proposal/ProposalResult.tsx:125-126 | a total cost of 0 is shown (`??`); an empty currency falls back to "—" (`\|\|`) |
| ProposalResult.PricingMissing | src/pages/Proposal/ProposalResult.tsx:125-126 | missing currency and total both show "—" |
| ProposalResult.EmptyProposalPlaceholders | src/pages/Proposal/ProposalResult.tsx:58-157 | an empty proposal object shows each section's placeholder, with no list rows and no optional line |
| Profile.DisplayName | src/pages/Profile/Profile.tsx:76 | the provider's display name, else the backend name, else "No name provided" |
| Profile.Email | src/pages/Profile/Profile.tsx:77 | the provider's email, else the backend email, else "No email" |
| Profile.AvatarOf | src/pages/Profile/Profile.tsx:79-83 | the photo exactly when there is one; else the display name's first letter, or "U" |
| Profile.ProviderId | src/pages/Profile/Profile.tsx:85 | `googleId`, else `_id`, else "n/a" |
| Profile.TruthyKeyLabels | src/pages/Profile/Profile.tsx:131-135 | exactly one chip per truthy entry: a chip for every truthy entry and only for truthy entries, labelled by its formatted key |
| Profile.Services | src/pages/Profile/Profile.tsx:129-136 | corrected: no chips for a falsy value, the names of an array, the truthy keys of an object, a crash for a truthy primitive |
| Profile.ServicesAsWritten | src/pages/Profile/Profile.tsx:129-136 | as written: no chips for a falsy value, an object's truthy keys, only index labels of truthy elements for an array, a crash for a truthy primitive |
| Profile.TechStack | src/pages/Profile/Profile.tsx:141-151 | one group per entry, headed by its formatted key over the entry's items; the section crashes exactly when some entry's value is a truthy non-array |
| Profile.CompanyProfileOf | src/pages/Profile/Profile.tsx:62 | `backendUser?.companyProfile \|\| null`: the truthy profile, else `null` |
| Profile.CompanyOf | src/pages/Profile/Profile.tsx:111-195 | the section shows exactly when none of its lists crashes; it carries the corrected services chips and the tech stack, never a falsy email or currency line, the size exactly when truthy, and the top roles exactly for truthy role costs |
| Profile.View | src/pages/Profile/Profile.tsx:60-200 | the identity card always, with its fallbacks; the upload prompt exactly without a truthy company profile; the page crashes exactly when the company section does |
| Profile.TopRoles | src/pages/Profile/Profile.tsx:163-168 | the first six entries, or all when fewer, each with its formatted role, the currency or "", and its cost |
| Profile.CaseStudies | src/pages/Profile/Profile.tsx:188-193 | one block per case study in order; a null entry or a truthy non-array aborts the render |
| Profile.PromptWithoutProfile | src/pages/Profile/Profile.tsx:107-110 | the upload prompt shows exactly when the company profile is falsy |
| Profile.ServicesAllTruthy | src/pages/Profile/Profile.tsx:131-135 | all-truthy services give one chip per entry, in order |
| Profile.FalsyServiceHidden | src/pages/Profile/Profile.tsx:132 | removing a falsy entry changes no chip |
| Profile.TopSixRoles | src/pages/Profile/Profile.tsx:164 | with six or more roles exactly the first six show |
| Profile.AvatarDefault | src/pages/Profile/Profile.tsx:82 | a user without a display name gets the initial "U" |
| Profile.ServicesArrayShowsIndices | src/pages/Profile/Profile.tsx:130-135 | as written, the services array `["Web", "Mobile"]` shows the chips "0" and "1" |
| Profile.DigitLabel | src/pages/Profile/Profile.tsx:134 | a one-digit key is its own label |
| Profile.ServicesIntended | src/pages/Profile/Profile.tsx:129-136 | corrected, an array shows its names; every value that is not an array shows what the code as written shows |
| Profile.ViewServicesArray | src/pages/Profile/Profile.tsx:129-136 | the page model shows the names of a services array, where the page as written shows its indices |
| Pages.Without | src/pages/index.tsx:47 | the filter keeps exactly the other sectors and shrinks a selection holding the sector |
| Pages.Toggled | src/pages/index.tsx:45-53 | toggling changes only the pressed sector, which ends up selected exactly when it was unselected below the cap, and keeps the cap |
| Pages.WithoutNoDuplicates | src/pages/index.tsx:47 | filtering keeps the selection free of duplicates |
| Pages.ToggleRemoves | src/pages/index.tsx:46-47 | a selected sector is removed and no other changes |
| Pages.ToggleAppends | src/pages/index.tsx:48-51 | an unselected sector is appended below the cap; at the cap nothing changes |
| Pages.ToggleKeepsWellFormed | src/pages/index.tsx:45-53 | the selection never exceeds two and never holds a sector twice |
| Pages.ToggleTwice | src/pages/index.tsx:45-53 | toggling twice restores the selection below the cap, and the selected set when it was selected |
| Pages.OnboardingPage.constructor | src/pages/index.tsx:41-42 | the selection starts as "Web Development", with no file |
| Pages.OnboardingPage.ToggleSector | src/pages/index.tsx:45-53 | a press sets the selection to the toggled one, keeping it well formed |
| Pages.OnboardingPage.HandleFileChange | src/pages/index.tsx:55-59 | the first chosen file's name is kept, and a non-empty one becomes the knowledge-base label; an empty choice changes nothing |
| Pages.OnboardingPage.KnowledgeBaseLabel | src/pages/index.tsx:104-118 | the knowledge-base box shows the chosen file name when it is non-empty, and "Upload Company Profile" otherwise |
| Pages.EnterDisabledIffNoSector | src/pages/index.tsx:149 | Enter Dashboard is disabled exactly when no sector is selected |
| Pages.OnboardingPage.EnterDisabled | src/pages/index.tsx:149 | the Enter-Dashboard button is disabled exactly when no sector is selected |
| Pages.OnboardingPage.Dimmed | src/pages/index.tsx:87 | a selected sector is never dimmed; an unselected one is dimmed exactly when the cap of two is reached |
| Pages.DimmedIffNoOp | src/pages/index.tsx:80-87 | a button is dimmed exactly when pressing it changes nothing |
| Pages.DeselectThenPick | src/pages/index.tsx:41-53 | from the start, deselecting disables entry; two different picks select both, the same one twice selects none |
| Pages.Indicators | src/pages/index.tsx:287-290 | five indicators, indicator `i` highlighted exactly when `i <= step` |
| Pages.IndicatorsPrefix | src/pages/index.tsx:289-290 | the highlighted indicators are the first `step + 1` |
| Pages.WorkstationPage.constructor | src/pages/index.tsx:235-236 | the workstation starts at step 0 with no logs |
| Pages.WorkstationPage.SetStep | src/pages/index.tsx:244-275 | a changed step clears the old timers and starts the interval only in step 2; an unchanged step re-runs nothing |
| Pages.WorkstationPage.ChooseIndustry | src/pages/index.tsx:298 | an industry card moves step 0 to 1 |
| Pages.WorkstationPage.SelectFile | src/pages/index.tsx:277-281 | a chosen file moves step 1 to 2 and starts logging; an empty choice does nothing |
| Pages.WorkstationPage.Tick | src/pages/index.tsx:259-267 | a tick appends the next log line in order, reading the updater's `seq[i]` before `i++` (the corrected half of the Findings row); once all eight are shown, it stops the interval and schedules step 3 |
| Pages.WorkstationPage.TimeoutElapsed | src/pages/index.tsx:263 | the timeout reaches step 3 with all eight lines logged |
| Pages.WorkstationPage.Approve | src/pages/index.tsx:402 | approving moves step 3 to 4 |
| Pages.WorkstationPage.RunAnalysis | src/pages/index.tsx:248-268 | nine ticks and the timeout log exactly the eight lines and reach step 3 |
| Pages.Walkthrough | src/pages/index.tsx:295-409 | industry, file, analysis and approval reach step 4 with every indicator highlighted |
| Pages.LineAt | src/pages/index.tsx:265 | `seq[k]` is line `k` of the log within its eight lines, and `undefined` past them |
| Pages.DeferredLog | src/pages/index.tsx:260-267 | with updaters that run after `i++`, tick `k` appends line `k + 1` |
| Pages.DeferredAnalysisLog.Tick | src/pages/index.tsx:265-266 | the queued updater reads the incremented `i`, so the appended line is the one after the tick's own |
| Pages.DeferredAnalysisLog.Run | src/pages/index.tsx:260-267 | the eight logging ticks leave exactly the deferred log |
| Pages.DeferredRunShifted | src/pages/index.tsx:249-266 | with deferred updaters a run logs lines two to eight and then `undefined`; "Initializing Bidcraft Agent..." never appears |

## Left out

- Network, Firebase authentication, `fetch` and `XMLHttpRequest` wiring, `alert`, `console`, `confirm`, router history (`navigate(-1)`): represented only by parameters, flags and navigation records.
- Timer durations and promise interleaving: timers are discrete events. Two pending completions racing each other are not modelled.
- Floating point: `Math.round(loaded / total * 100)` is computed exactly in integers, with halves rounded up. Rounding error in the floating-point product is not modelled.
- Api.ProgressReport: requires a non-zero total when the length is computable, because a multipart body is never empty. A zero total would give `NaN` in the browser.
- Api.Complete: the "Network error" rejection from `onerror` is not modelled separately. `onreadystatechange` settles the promise first with status 0.
- The JSON numbers are integers. Fractional costs and durations are not modelled.
- JSON object key order: `Object.entries` lists fields in stored order. JavaScript's rule that integer-like keys come first is not modelled.
- Profile.AvatarOf: takes the first character of the display name. JavaScript's `charAt(0)` at src/pages/Profile/Profile.tsx:82 takes the first UTF-16 code unit, which is half of a character outside the Basic Multilingual Plane; strings here are sequences of characters, not of code units.
- The label regexes are modelled on ASCII: `\w` and `\b` as JavaScript defines them without the `u` flag, and `toUpperCase` on `a`–`z`.
- React's own checks are not modelled: an object rendered as a child throws, and a `0` on the left of `&&` prints "0". The model treats these values as shown.
- JSON.stringify formatting of the proposal dump and `dangerouslySetInnerHTML`: the body records only which branch renders and with what value.
- The PDF export and "open in new tab" buttons (html2pdf, `window.open`): browser I/O.
- SrsUploadModal.SrsUploadSheet.OnFile: requires the sheet to be idle. While an upload runs, the progress overlay covers the sheet, so no second choice can be made.
- Closing the SRS sheet while an upload runs is not modelled. The Cancel button at src/components/SRSUpload/SRSUploadModal.tsx:120 and the overlay click at :99 call `onClose` at any time, but the pending upload is not cancelled: its completion still navigates to the review and calls `onClose` again (:84-88). The sheet's `closed` flag records only the `onClose` call at the end of the dwell. No event closes the sheet earlier, because whether the parent unmounts it is outside its code.
- CompanyProfile.CompanyProfilePage.OnFile: requires the page to be idle. The page imports the progress modal but never renders it, so nothing prevents a second choice during an upload. Two uploads in flight at once are not modelled.
- CompanyProfile.CompanyProfilePage.DwellElapsed: the refreshed backend user is not modelled. A failed refresh is ignored and the outcome is the same, so the refresh result is not a parameter.
- The workstation's "Start New Bid" and "Download PDF" buttons call a parent callback or do nothing, and are not modelled. The dashboard, login-page and markup-only sections of src/pages/index.tsx are not part of this model.
- Pages.OnboardingPage.ToggleSector: the handler reads the selection of the last render and updates from the pending one. Presses are modelled one render apart, where the two agree.
- ReviewSummary.ReviewPage.constructor: requires a truthy extracted record, because the buttons exist only then. The hook order changing between renders is not modelled.
- Profile.CompanyOf, Profile.View: the page model carries the corrected services chips (`Profile.Services`). The page as written lists a services array by its index keys (`Profile.ServicesAsWritten`, `Profile.ServicesArrayShowsIndices`), and on every other value the two agree (`Profile.ServicesIntended`).
- Pages.WorkstationPage.Tick: appends `seq[i]` as read at the `setLogs` call, so `TimeoutElapsed`, `RunAnalysis` and `Walkthrough` end with the eight lines in order. React applies the updater at that call only when it computes the state eagerly. When it defers the updater to the next render, the updater reads `i` after `i++`, and the page shows lines two to eight and then an empty line (`Pages.DeferredAnalysisLog`, `Pages.DeferredRunShifted`). The model takes the in-order reading, which is the corrected half of the Findings row.
- Route matching: React Router matches paths case-insensitively and tolerates a trailing slash. The model matches paths exactly.
- JSON objects are field sequences and may repeat a key, which no JavaScript object can. `Lookup` reads the first field with the key, and every value built from parsed JSON is taken to have distinct keys.
- Processing: the `idToken || ""` token and `auth.currentUser` are folded into the generation result.

## Findings

| source | as written | input that shows it | evidently intended | confidence | as-written member | corrected member |
|---|---|---|---|---|---|---|
| src/pages/Profile/Profile.tsx:129-136 | an array is `typeof "object"`, so a services array takes the `Object.entries` branch and its chips are the indices | `services: ["Web", "Mobile"]` shows chips "0" and "1" | the `string[]` branch: chips "Web" and "Mobile" | high, not executed | Profile.ServicesArrayShowsIndices | Profile.ServicesIntended |
| src/pages/index.tsx:265-266 | the updater `(prev) => [...prev, seq[i]]` reads the shared `i` when React applies it, which can be after the `i++` that follows | any analysis run in which React defers the updater to the next render: the log is lines two to eight followed by `undefined` | the eight lines in order, from "Initializing Bidcraft Agent..." | medium, not executed: it depends on whether React computes the update eagerly at the call | Pages.DeferredRunShifted | Pages.WorkstationPage.RunAnalysis |
