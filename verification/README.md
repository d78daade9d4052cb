# DriveApproved loan application: verified model of the core logic

DriveApproved is a web form for auto-loan applications with an admin
dashboard. This project models its decision and state logic in Dafny and
proves properties of the model:

- **Placeholder AI assessment** (`ai_processing.dfy`, module `AiProcessing`).
  `generateAISummary` scores a partial application. It applies four rule
  groups in a fixed order: income, employment length, employment status and
  down-payment ratio. Each group may change the score, may change the risk
  level and may add one insight. The score is then clamped to 1..10, and a
  summary sentence reports the final score and risk. `GenerateAISummary`
  updates local variables block by block, as the source does. It is proved
  equal to `Assess`, which is a fold of one pure function per rule group.
  The lemmas state the bounds, the baseline, how risk is decided, and the
  order of the insights.
- **Application wizard** (`apply_wizard.dfy`, module `ApplyWizard`). The
  page state is a class: the current step (1..5), the partial record (a map
  from field name to value), and the three file slots. Its methods are
  `nextStep`, `prevStep`, `updateFormData`, `updateFiles` and
  `handleSubmit`. There is also the step indicator, and the record that
  submission hands to the document store.
- **Document upload step** (`documents_upload.dfy`, module
  `DocumentsUpload`). A class holds the per-slot error map. It has the file
  change handler, the validator, and the submit gate.
- **Admin dashboard list logic** (`admin_dashboard.dfy`, module
  `AdminDashboard`): the status filter, the status badge style, the CSV
  export text, and the conversion of stored timestamps.
- `values.dfy` (module `Values`) holds the shared types. These are optional
  fields, JavaScript numbers (finite or NaN), JavaScript truthiness, record
  field values, and the decimal rendering of an integer.

JavaScript truthiness is modelled exactly:
- A number field of 0, NaN or undefined skips its rule.
- An empty or undefined string skips its rule.
- Category values are the literal strings the code compares against, for
  example `"5+ years"` or `"Unemployed"`. Any other string changes nothing.

The down-payment percentage is computed in exact rational arithmetic.
`AiProcessing.DownPaymentThresholds` shows that, for a positive price, the
thresholds are `5 * downPayment >= price` (at least 20%) and
`10 * downPayment < price` (below 10%).

Behaviour of the code worth knowing:
- A 10% down payment is neither "substantial" nor "low", so income 5000,
  "5+ years", "Full-time", and a 2000 down payment on a 20000 price give
  three insights and a raw score of 11, clamped to 10 (`WorkedExamples`).
- The code never checks that the vehicle price is positive. It only skips
  a falsy price. A negative price with a positive down payment gives a
  negative percentage and falls into the "low down payment" branch; with
  both negative the percentage is positive and the thresholds flip
  (`DownPaymentEffectNegativePrice`). The model keeps this.
- Employment length and status are free strings in the code, not closed
  enumerations. Unrecognised values such as `"1-3 years"` or `"Retired"` fall
  through silently (`UnrecognisedLengthIgnored`, `UnrecognisedStatusIgnored`).

Outside services become parameters of the model:
- The storage upload is a function `upload: File -> string`.
- The document store's answer is `storeResult`: the new id, or None when a
  remote call fails.
- The clock is `now`.
- Number and date formatting are the functions `localeString`, `numberText`
  and `dateText`.

## Model

| member | source | states |
|---|---|---|
| `AiProcessing.GenerateAISummary` | src/lib/ai-processing.ts:11-93 | The step-by-step computation returns exactly the fold `Assess` of the four rule groups and the clamp, and its score lies in 1..10. |
| `AiProcessing.ScoreIncome` | src/lib/ai-processing.ts:22-37 | The income block leaves score, risk and insights as `IncomeRule` says. |
| `AiProcessing.ScoreEmploymentLength` | src/lib/ai-processing.ts:39-52 | The employment-stability block leaves score, risk and insights as `LengthRule` says. |
| `AiProcessing.ScoreEmploymentStatus` | src/lib/ai-processing.ts:54-67 | The employment-status block leaves score, risk and insights as `StatusRule` says. |
| `AiProcessing.ScoreDownPayment` | src/lib/ai-processing.ts:69-79 | The down-payment block leaves score, risk and insights as `DownPaymentRule` says. |
| `AiProcessing.IncomeRule` | src/lib/ai-processing.ts:23-36 | Appends at most one income insight. Moves the score by -1..+3. When income is truthy, risk is Low iff income >= 5000. A falsy income changes nothing. |
| `AiProcessing.LengthRule` | src/lib/ai-processing.ts:40-51 | Appends at most one length insight. Moves the score by -1..+2. Never changes a Medium or High risk. Risk stays Low iff it was Low and the length is not "Less than 1 year". |
| `AiProcessing.StatusRule` | src/lib/ai-processing.ts:55-66 | Appends at most one status insight. Moves the score by -3..+1. "Unemployed" forces High. Otherwise a non-Low risk is kept. Risk stays Low iff it was Low and the status is not Part-time, Self-employed or Unemployed. |
| `AiProcessing.DownPaymentRule` | src/lib/ai-processing.ts:70-78 | Appends at most one down-payment insight. Moves the score by -1..+1. Never changes risk. Is skipped when either amount is falsy. |
| `AiProcessing.DownPaymentPercent` | src/lib/ai-processing.ts:71 | The percentage times the price is 100 times the down payment, for any nonzero price. |
| `AiProcessing.Clamp` | src/lib/ai-processing.ts:82 | The result is in 1..10. It equals the input inside that range, 1 below it and 10 above it. |
| `AiProcessing.Summary` | src/lib/ai-processing.ts:85 | The sentence opens with "This applicant earns $" and the income text, and ends with the clause reporting the given score out of 10 and the risk level. |
| `AiProcessing.Assess` | src/lib/ai-processing.ts:11-93 | The assessment's score is in 1..10 and it has at most four insights. |
| `AiProcessing.RawScoreRange` | src/lib/ai-processing.ts:18-82 | Before the clamp the score is in -1..12, and the clamp changes it only at -1, 0, 11 and 12. |
| `AiProcessing.RawScoreExtremes` | src/lib/ai-processing.ts:18-79 | Raw scores of -1 and 12 are both reached by concrete applications. |
| `AiProcessing.Baseline` | src/lib/ai-processing.ts:18-20 | With income, length and status falsy, and down payment or price falsy, the score is 5, the risk Medium and the insights empty. |
| `AiProcessing.RiskMatchesExpected` | src/lib/ai-processing.ts:19-66 | The final risk equals a closed-form definition that does not depend on the order of updates. Unemployed gives High. Otherwise the income tier decides, and a Low is raised to Medium by a short tenure or a non-traditional status. |
| `AiProcessing.UnemployedIsHighRisk` | src/lib/ai-processing.ts:62-66 | Status "Unemployed" gives final risk High whatever the income rule set. |
| `AiProcessing.LowRiskIff` | src/lib/ai-processing.ts:24-27 | The final risk is Low iff all three hold: income >= 5000, length is not "Less than 1 year", and status is not Part-time, Self-employed or Unemployed. |
| `AiProcessing.LaterRulesNeverLowerRisk` | src/lib/ai-processing.ts:40-78 | The length, status and down-payment rules never turn Medium or High into Low. |
| `AiProcessing.FullTimeDoesNotUndoHighRisk` | src/lib/ai-processing.ts:32-58 | Low income followed by a Full-time status still ends High, because the rules depend on order. |
| `AiProcessing.InsightsInRuleOrder` | src/lib/ai-processing.ts:20-79 | Every insight comes from one rule group. The groups strictly increase along the list (income, length, status, down payment), so there are at most four insights. |
| `AiProcessing.DownPaymentThresholds` | src/lib/ai-processing.ts:71-78 | For a positive price, percentage >= 20 iff 5·dp >= price, and percentage < 10 iff 10·dp < price. |
| `AiProcessing.DownPaymentEffect` | src/lib/ai-processing.ts:70-78 | For a positive price: from 20% up, +1 and the "Substantial…" insight. Below 10%, -1 and the "Low down payment…" insight. In between, nothing changes. |
| `AiProcessing.DownPaymentThresholdsNegativePrice` | src/lib/ai-processing.ts:71-78 | For a negative price the thresholds flip: percentage >= 20 iff 5·dp <= price, and percentage < 10 iff 10·dp > price. |
| `AiProcessing.DownPaymentEffectNegativePrice` | src/lib/ai-processing.ts:70-78 | For a negative price: +1 and the "Substantial…" insight when 5·dp <= price, -1 and the "Low down payment…" insight when 10·dp > price, otherwise nothing changes. |
| `AiProcessing.UnrecognisedLengthIgnored` | src/lib/ai-processing.ts:40-52 | A length value other than the three recognised ones gives the same score, risk and insights as no length at all. |
| `AiProcessing.UnrecognisedStatusIgnored` | src/lib/ai-processing.ts:55-67 | A status value other than the four recognised ones gives the same score, risk and insights as no status at all. |
| `AiProcessing.SummaryReportsFinalResult` | src/lib/ai-processing.ts:85 | The summary ends with the clamped score and the final risk level, and the score's digits read back as the score. |
| `AiProcessing.WorkedExamples` | src/lib/ai-processing.ts:18-82 | Two concrete applications. One gives score 10, Low risk and three insights. The other gives score 1, High risk and the two insights in rule order. |
| `Values.DecimalRoundTrip` | src/lib/ai-processing.ts:85 | The decimal text interpolated for the score parses back to the score. |
| `ApplyWizard.WalkStaysInRange` | src/app/apply/page.tsx:49-59 | From any step in 1..5, any sequence of next and back presses stays in 1..5. |
| `ApplyWizard.Next` | src/app/apply/page.tsx:49-53 | The step moves forward by at most one. It stays put exactly on the last step or beyond, and a step in 1..5 stays in 1..5. |
| `ApplyWizard.Prev` | src/app/apply/page.tsx:55-59 | The step moves back by at most one. It stays put exactly on the first step or below, and a step in 1..5 stays in 1..5. |
| `ApplyWizard.NavigationRoundTrip` | src/app/apply/page.tsx:49-59 | For steps 1..4, next then back returns to the same step. For steps 2..5, back then next returns to it. Next is a no-op at 5 and back is a no-op at 1. |
| `ApplyWizard.StepMark` | src/app/apply/page.tsx:134-149 | Indicator slot i is current iff i+1 equals the step, and done iff i+1 is below it. |
| `ApplyWizard.StepMarksShape` | src/app/apply/page.tsx:132-149 | For a valid step s, the indicator row is s-1 done slots, one current slot, then pending slots. |
| `ApplyWizard.UploadAll` | src/app/apply/page.tsx:72-82 | One URL per file, and the i-th URL is the upload of the i-th file. |
| `ApplyWizard.SubmittedRecord` | src/app/apply/page.tsx:72-97 | The stored record is the form data with five keys written over it. The three URL fields hold one URL per file, in file order. The ID URL is "" when there is no ID. Status is "New" and createdAt is the submission time. Every other key keeps its form value. |
| `ApplyWizard.ApplicationPage.constructor` | src/app/apply/page.tsx:18-34 | The page starts at step 1 with the initial record, empty file slots, not submitting, and no application id. |
| `ApplyWizard.ApplicationPage.UpdateFormData` | src/app/apply/page.tsx:38-40 | Every patched key takes the patch value. Every other key keeps its value. No key is dropped. |
| `ApplyWizard.ApplicationPage.UpdateFiles` | src/app/apply/page.tsx:42-47 | Only the named slot is replaced. The other two slots and the rest of the page are unchanged. |
| `ApplyWizard.ApplicationPage.NextStep` | src/app/apply/page.tsx:49-53 | The step goes up by one below 5 and stays put at 5, and it stays in 1..5. |
| `ApplyWizard.ApplicationPage.PrevStep` | src/app/apply/page.tsx:55-59 | The step goes down by one above 1 and stays put at 1, and it stays in 1..5. |
| `ApplyWizard.ApplicationPage.HandleSubmit` | src/app/apply/page.tsx:67-111 | On success the page stores `SubmittedRecord`, records the new id and moves to step 5. On failure the step and id are unchanged. Afterwards the page is never left submitting. |
| `DocumentsUpload.MissingDocuments` | src/components/application/DocumentsStep.tsx:34-44 | The error map has a "payStubs" key iff there are no pay stubs, a "bankStatements" key iff there are no statements, and an "id" key iff there is no ID. Each key carries its message and there are no other keys. |
| `DocumentsUpload.CompleteIffNoErrors` | src/components/application/DocumentsStep.tsx:46 | Validation passes iff the error map is empty. |
| `DocumentsUpload.DocumentsStep.constructor` | src/components/application/DocumentsStep.tsx:20 | The step starts with no errors. |
| `DocumentsUpload.DocumentsStep.HandleFileChange` | src/components/application/DocumentsStep.tsx:22-32 | The ID slot gets only the first selected file, or nothing for an empty selection. The list slots get the whole selection. Only the changed slot's error is cleared to "", and other errors are untouched. Without a file list, nothing changes. |
| `DocumentsUpload.DocumentsStep.ValidateFiles` | src/components/application/DocumentsStep.tsx:34-47 | The error map is replaced by `MissingDocuments` of the current files, so errors for slots that now pass are gone. The result is true iff pay stubs and statements are non-empty and an ID is present. |
| `DocumentsUpload.DocumentsStep.HandleSubmit` | src/components/application/DocumentsStep.tsx:49-54 | The page's submission runs iff validation passes, and then the page ends not submitting. Otherwise the page's step, id and submitting flag are unchanged. |
| `AdminDashboard.CreatedAtMillis` | src/app/admin/dashboard/page.tsx:44 | A Date is kept. A stored timestamp becomes a whole number of seconds times 1000 milliseconds. |
| `AdminDashboard.TimestampConversionMonotone` | src/app/admin/dashboard/page.tsx:44 | The conversion preserves the order of timestamps and ignores their nanoseconds. |
| `AdminDashboard.Shown` | src/app/admin/dashboard/page.tsx:56-59 | Filter "all" shows every application. Any other filter shows exactly the applications whose status equals it, so an application without a status is shown only under "all". |
| `AdminDashboard.FilterApplications` | src/app/admin/dashboard/page.tsx:56-59 | Filter "all" returns the list unchanged. Otherwise every kept application is from the list and has exactly the filter's status. |
| `AdminDashboard.FilterKeepsOrder` | src/app/admin/dashboard/page.tsx:56-59 | Filtering a concatenation is the concatenation of the filtered parts, so relative order is kept. |
| `AdminDashboard.FilterKeepsExactlyMatching` | src/app/admin/dashboard/page.tsx:56-59 | Each matching application appears as many times as in the input, and no other appears. |
| `AdminDashboard.StatusClass` | src/app/admin/dashboard/page.tsx:61-73 | The gray default is returned iff the status is not New, In Review, Approved or Declined. |
| `AdminDashboard.StatusClassesDistinct` | src/app/admin/dashboard/page.tsx:61-73 | The four known statuses map to four different classes. |
| `AdminDashboard.SplitJoin` | src/app/admin/dashboard/page.tsx:79-90 | Joining comma- or newline-free pieces and splitting at the separator gives the pieces back. |
| `AdminDashboard.Row` | src/app/admin/dashboard/page.tsx:81-89 | An exported row has one cell per header column. |
| `AdminDashboard.CsvLines` | src/app/admin/dashboard/page.tsx:78-90 | One header line followed by one line per shown application. The header is the comma-joined column names, and line k+1 is the comma-joined row of the k-th shown application. |
| `AdminDashboard.CsvContent` | src/app/admin/dashboard/page.tsx:78-90 | The exported text begins with the header line. With no application shown it is exactly the header line. |
| `AdminDashboard.HeaderHasSevenColumns` | src/app/admin/dashboard/page.tsx:78-80 | The header line splits at commas into the seven column names. |
| `AdminDashboard.CsvHasOneLinePerApplication` | src/app/admin/dashboard/page.tsx:78-90 | If no cell of a shown application contains a newline, the export has exactly 1 + (number of shown applications) lines. The first is the header, and line k+1 is the k-th shown application's row. |
| `AdminDashboard.RowHasSevenFields` | src/app/admin/dashboard/page.tsx:81-89 | If no cell contains a comma, a row splits back into exactly its seven cells in header order. |
| `AdminDashboard.CommaInNameShiftsColumns` | src/app/admin/dashboard/page.tsx:81-89 | The export does no quoting, so a name containing a comma yields a row of eight fields. |

## Left out

- The database, storage and authentication calls are not modelled. This covers `uploadFile`, `addDoc`, `getDocs`, `onAuthStateChanged` and sign-out. Uploads are an order- and length-preserving function, and a failed remote call is the single outcome `storeResult == None`.
- Upload paths are not modelled, because they are built from the clock and the file name. Files already uploaded before a later failure stay in storage, which the model does not track.
- `fetchApplications` is not modelled. Its loop collects documents from the store; only its timestamp conversion (`CreatedAtMillis`) is modelled.
- The listing order by `createdAt` is not modelled, because the store provides it.
- The blob/link download plumbing of the CSV export, all rendering, the progress-bar percentage, and the file sizes in KB are left out. They are presentation or floating point.
- `analyzeDocuments` and `detectFraud` are left out: one returns random values and the other a constant. The demo page's timer mock is left out too.
- The `parseFloat` input handlers of the employment and vehicle steps are left out, and so are the purely presentational pages and steps. The personal-info step only forwards to `updateFormData`, which is modelled.
- The admin detail page is not part of this model. That includes its one-line summary fallback.
- Infinity is not a modelled number value, only finite numbers and NaN.
- The down-payment percentage uses exact arithmetic, so IEEE rounding at exactly 10% and 20% is not captured.
- `toLocaleString`, number-to-text conversion and `toLocaleDateString` are opaque function parameters.
- `ApplyWizard.ApplicationPage.HandleSubmit` runs as one atomic step. The `isSubmitting` flag is not observed while the upload is in flight.
- `ApplyWizard.ApplicationPage.UpdateFiles`: requires that the ID slot receive a single (optional) file and the list slots a list. This is what its only caller passes; the parameter is untyped in the source.
- `DocumentsUpload.DocumentsStep`: the upload step is mounted only while the wizard shows step 4, so its error map starts empty each time the user returns to that step. The model keeps one `DocumentsStep` object whose errors persist across navigation; it does not model the unmount.
- The step-indicator slot labels and the check-mark icon are left out.
