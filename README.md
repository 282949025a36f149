# Root Routes PIE intake form — a verified model of its state logic

The PIE ("Protocolo de Investigación Estandarizado") intake form is a single React
component, `App`. A user fills in a twelve-field strategy record through a five-step
wizard. The form then runs a rule-based "coherence diagnosis", submits the record to a
remote `ingestions` table, and offers a Markdown copy of it for download. This project
models the logic behind that UI and proves properties of it:

- `Intake` (`intake.dfy`): the record (`pieData`), with four fixed sections and twelve
  string fields, its starting values, and the copy-with-update done by `handleInputChange`.
- `Progress` (`progress.dfy`): the "Progreso del PIE" percentage, computed as
  `Math.round(count / 12 * 100)` over the non-empty fields. `count` is the same
  section-by-section reduce the widget uses.
- `Steps` (`steps.dfy`): the five-step list and its three moves. "Anterior" is clamped
  at 0, "Siguiente" is clamped at the last step, and the sidebar jumps to an entry's index.
- `Coherence` (`coherence.dfy`): the diagnosis decision table. It has three rows, the
  first match wins, and the comparisons are exact string comparisons. The default row
  quotes 30-character prefixes of two fields.
- `Submission` (`submission.dfy`): the `isSubmitting` / `submitted` / `error` flags of the
  submit handler. The flags pass through the configuration check, the success branch and
  the `catch` branch. This module also builds the inserted payload.
- `Export` (`export.dfy`): the Markdown report built by `generateMarkdown`, where every
  empty field shows "No definido", and the downloaded file's name.
- `AppState` (`app.dfy`): the component's state as a class. Each handler is a method
  proved against the pure definitions above. A closing client method walks through a
  whole session.

The submit handler is split at its `await`. `BeginSubmit` is the synchronous part: it
raises `isSubmitting` before any insert is attempted, or reports the missing configuration
and performs no insert. `FinishSubmit` applies the insert's outcome.

What the code does, as the model states it:

- The starting record already has three non-empty fields (`tension`, `sofisticacion` and
  `prioritario`), so the progress widget starts at 25%, not 0%.
  `Progress.InitialCompletion` proves this.
- Row 1 of the diagnosis compares `sofisticacion` with the exact string "Inconsciente".
  The five option texts of the sophistication select are longer sentences that only start
  with those words. Once the audience is picked from the select, row 1 can no longer fire.
  `Coherence.SelectNeverSignalsUnaware` proves this. The model keeps the exact comparison
  the code makes.
- The submit handler calls `supabase`, but `src/App.jsx` never imports it. As written,
  a configured submission therefore throws and ends in the `catch` branch. That case is
  the `Failed` outcome of the model.
- Nothing deduplicates submissions. Every configured press of the button attempts a new
  insert carrying the same session id.

## Model

| member | source | states |
|---|---|---|
| Intake.Initial | src/App.jsx:39-60 | the starting record: exactly `tension`, `sofisticacion` and `prioritario` are non-empty, holding "Media", "Consciente del Problema" and "Ventas" |
| Intake.Update | src/App.jsx:70-75 | after an edit the field reads back exactly the given value (no trimming or validation); every other field, and every section other than the field's own, is unchanged |
| Intake.SectionFields | src/App.jsx:39-60 | a section lists only its own fields, and has two to four of them (that every field of the section is listed is `SectionFieldsCover`) |
| Intake.SectionFieldsCover | src/App.jsx:39-60 | every field is listed in its own section, so the sections together cover the record |
| Intake.Extensionality | src/App.jsx:39-60 | the record has a fixed shape: two records that agree on all twelve fields are equal |
| Intake.UpdateLastWriteWins | src/App.jsx:70-75 | a second edit of the same field erases the first |
| Intake.UpdateCommutes | src/App.jsx:70-75 | edits of two different fields give the same record in either order |
| Intake.UpdateSameValue | src/App.jsx:70-75 | writing back a field's current value changes nothing |
| Progress.CountTruthy | src/App.jsx:293 | `filter(Boolean).length` is at most the number of values; it is 0 exactly when all values are empty and full exactly when none is |
| Progress.Reduce | src/App.jsx:293 | the reduce's running total never decreases, and each section adds at most four |
| Progress.ReduceBySection | src/App.jsx:293 | the reduce adds up the counts of the four sections |
| Progress.ReduceIsFieldCount | src/App.jsx:293 | the section-by-section reduce equals the count of non-empty values taken field by field over the twelve fields |
| Progress.FilledCount | src/App.jsx:293 | the widget's count is the number of non-empty fields among the twelve, so at most 12 |
| Progress.UpdateCount | src/App.jsx:293 | editing one field changes the count by exactly the change in that field's emptiness; the count never exceeds 12 |
| Progress.RoundedPercent | src/App.jsx:293 | the result is the integer nearest to n/12 × 100, with halves rounded up, as `Math.round` does |
| Progress.RoundedPercentMonotone | src/App.jsx:293 | more filled fields never give a lower percentage, and strictly more give a strictly higher one |
| Progress.FilledCountExtremes | src/App.jsx:293 | the count is 0 exactly when every field is empty, and 12 exactly when every field is filled |
| Progress.Completion | src/App.jsx:293 | the percentage lies in [0, 100] and is the rounding of count/12 × 100; it is 0 exactly when all fields are empty and 100 exactly when all are filled |
| Progress.InitialSectionCounts | src/App.jsx:39-60 | in the starting record the four sections hold 0, 1, 1 and 1 non-empty values |
| Progress.InitialFilledCount | src/App.jsx:39-60 | the starting record has 3 filled fields |
| Progress.InitialCompletion | src/App.jsx:39-60 | the widget starts at 25, not 0 |
| Progress.FillingRaisesCompletion | src/App.jsx:293 | setting an empty field to a non-empty value strictly raises the percentage |
| Progress.ClearingNeverRaisesCompletion | src/App.jsx:293 | clearing a field never raises the percentage |
| Steps.Previous | src/App.jsx:595 | "Anterior" keeps the step in range, leaves step 0 where it is, and otherwise moves back exactly one step |
| Steps.Next | src/App.jsx:609 | "Siguiente" keeps the step in range, leaves the last step where it is, and otherwise moves forward exactly one step |
| Steps.PreviousNextInverse | src/App.jsx:594-614 | "Anterior" undoes "Siguiente" except on the last step; "Siguiente" undoes "Anterior" except on step 0 |
| Steps.Apply | src/App.jsx:265-268 | any single move from the buttons or the sidebar leaves the step in [0, 4] |
| Steps.Run | src/App.jsx:594-614 | after any sequence of button presses and sidebar clicks (the clicks of src/App.jsx:265-268), the step is still in [0, 4]; a sequence that ends with a click ends on that click's step |
| Steps.ForwardRepeated | src/App.jsx:609 | pressing "Siguiente" k times from step s reaches min(4, s + k) |
| Steps.BackRepeated | src/App.jsx:595 | pressing "Anterior" k times from step s reaches max(0, s − k) |
| Steps.RunAfterJump | src/App.jsx:265-268 | a sidebar click forgets everything before it: the step then depends only on the click and the moves after it |
| Coherence.Prefix | src/App.jsx:197 | `substring(0, n)` has length min(n, length of s) and is a prefix of s |
| Coherence.Generic | src/App.jsx:196-199 | the default row quotes at most 30 characters of the offer and of the objections: each text is its fixed head and tail plus min(30, field length) characters |
| Coherence.Diagnose | src/App.jsx:187-201 | the stored diagnosis is always one of the table's three rows, and its problem and lever are never empty |
| Coherence.GuardsExclusive | src/App.jsx:190-193 | the guards of rows 1 and 2 never hold together |
| Coherence.GenericIsNeitherWarning | src/App.jsx:196-199 | the default row's problem text differs from both warnings' texts |
| Coherence.UnawareAlertIff | src/App.jsx:190-192 | the diagnosis is the "ALERTA" warning exactly when `prioritario` is "Ventas" and `sofisticacion` is "Inconsciente" |
| Coherence.PolarizationRiskIff | src/App.jsx:193-195 | the diagnosis is the "Riesgo calculado" warning exactly when row 1's guard fails, `tension` is "Alta" and `prioritario` is "Alcance" |
| Coherence.GenericQuotesPrefixes | src/App.jsx:196-199 | when neither guard holds, the problem quotes exactly the first min(30, length of `vende`) characters of the offer between its fixed head and tail, and the lever does the same for `objeciones` |
| Coherence.DiagnoseReadsFiveFields | src/App.jsx:187-201 | the diagnosis is a function of `prioritario`, `sofisticacion`, `tension`, `vende` and `objeciones` alone |
| Coherence.SelectNeverSignalsUnaware | src/App.jsx:460-464 | none of the select's five option texts makes row 1 fire |
| Submission.SyncError | src/App.jsx:120 | the failure text is "Error de sincronización: " followed by the message, or by "Error desconocido" when the message is empty |
| Submission.ConfigErrorIsNotSyncError | src/App.jsx:86 | the configuration message is never equal to a synchronisation error |
| Submission.SyncErrorInjective | src/App.jsx:120 | different non-empty failure messages give different error texts |
| Submission.Begin | src/App.jsx:81-89 | before the await: `submitted` is untouched, and the error is cleared; when configured, `isSubmitting` is raised; when not, `isSubmitting` is lowered and the configuration message is shown |
| Submission.Finish | src/App.jsx:110-122 | after the await nothing is in flight; the form is submitted exactly when it already was or the insert succeeded; a failure shows the synchronisation error and a success keeps the error as it was |
| Submission.Submit | src/App.jsx:80-123 | after a whole press nothing is in flight, the error is the one that press alone determines, and the form is submitted exactly when it already was or the press succeeded |
| Submission.SubmitWithoutConfiguration | src/App.jsx:81-89 | a press without configuration ends idle, shows the configuration message and leaves `submitted` as it was |
| Submission.SubmitSucceeds | src/App.jsx:114-116 | a press whose insert succeeds ends idle, submitted and without error |
| Submission.SubmitFails | src/App.jsx:118-121 | a press whose insert fails ends idle, shows the synchronisation error and leaves `submitted` as it was |
| Submission.RunAttemptsOutcome | src/App.jsx:80-123 | after any presses nothing is in flight, the error reflects the last press only, and the form is submitted exactly when it already was or some press succeeded |
| Submission.MakePayload | src/App.jsx:93-102 | the payload carries the session id and the record, metadata made of the user agent, the timestamp and version "1.0.0", and status "raw_input" |
| Export.Shown | src/App.jsx:141-158 | a field's shown value is never empty: the value itself, or "No definido" for an empty field |
| Export.ReportLines | src/App.jsx:129-165 | the report's template has 36 lines |
| Export.LineAt | src/App.jsx:129-165 | in the joined report, line k is found at its offset and is followed by a line break |
| Export.ReportLineOfField | src/App.jsx:141-158 | each field's bullet is its label followed by its shown value |
| Export.MarkdownShowsField | src/App.jsx:141-158 | for every field, the report contains that field's labelled line, which shows the value or "No definido" |
| Export.FieldLinesDistinct | src/App.jsx:141-158 | different fields are reported on different lines |
| Export.Markdown | src/App.jsx:126-165 | the report text opens with the `---` fence and a line break, and closes with the JSON block's closing fence and a line break |
| Export.FrontMatterJoined | src/App.jsx:129-134 | the joined front matter is the `---` fence, the type tag, `id:` with the session id, `date:` with the timestamp, `status: raw-input` and the closing fence |
| Export.MarkdownFrontMatter | src/App.jsx:129-134 | the report opens with that whole front matter, the session id on its `id:` line and the timestamp on its `date:` line |
| Export.ReportTitleLine | src/App.jsx:136 | the report's eighth line is `# ROOT ROUTES OS - ` followed by the title |
| Export.MarkdownEmbedsJson | src/App.jsx:160-164 | the record's JSON stands verbatim on its own line between the json fence lines |
| Export.FileName | src/App.jsx:169 | the file name is "PIE_", then the session id, then "_SystemReady.md" |
| Export.FileNameInjective | src/App.jsx:169 | different sessions save under different file names |
| Export.Artifacts | src/App.jsx:168-170 | exactly one file is produced: the report, named after the session |
| AppState.App.constructor | src/App.jsx:29-60 | the component starts on step 0, not generating, not submitting, not submitted, with no error and no diagnosis, and with the starting record |
| AppState.App.HandleInputChange | src/App.jsx:70-75 | the record becomes the old record with that one field replaced |
| AppState.App.GoPrevious | src/App.jsx:595 | the step moves as `Previous` says and stays valid |
| AppState.App.GoNext | src/App.jsx:609 | the step moves as `Next` says and stays valid |
| AppState.App.SelectStep | src/App.jsx:265-268 | a sidebar click makes its entry's index the active step |
| AppState.App.RunDiagnosis | src/App.jsx:183-204 | the stored diagnosis is the decision table applied to the record, and `isGenerating` is lowered again |
| AppState.App.BeginSubmit | src/App.jsx:80-102 | the flags move as `Begin` says; the insert to perform carries the session id and the current record, and there is none without configuration |
| AppState.App.FinishSubmit | src/App.jsx:104-122 | the flags move as `Finish` says for the insert's outcome; `submitted` is never reset |
| AppState.App.DownloadArtifacts | src/App.jsx:125-170 | the files handed to the browser are the one report named "PIE_" + session id + "_SystemReady.md" |

## Left out

- Presentation: all markup, styling, icons, animations and class names (src/App.jsx:206-621).
  They carry no state logic. Also left out: the "submitted" screen that replaces the form
  once `submitted` is true, and the buttons being disabled. The model's methods can be
  called in any state, including `FinishSubmit` with no insert in flight.
- AppState.App.RunDiagnosis: runs the 1500 ms timer's callback at once. As written, the
  callback reads the record captured when the button was pressed. The button is also not
  disabled while `isGenerating` is true, so two presses schedule two callbacks. Neither
  latency effect is modelled.
- AppState.App.BeginSubmit: does not stop a second submission while one is in flight. In
  the UI the disabled button does that. The remote insert itself is an outside SDK call,
  and its outcome is an input of `FinishSubmit`.
- The `VITE_SUPABASE_URL` environment check is a boolean input.
- `JSON.stringify(data, null, 2)` is a library serialiser. Its output is an input of the
  report, so a round trip of the embedded JSON back to the record is not stated.
- Inputs that depend on the host or on chance are parameters: the session id drawn with
  `Math.random`, the ISO timestamps from `new Date()`, and `navigator.userAgent`. The
  DOM download (Blob, anchor, click) and `window.location.reload` are left out, and so are
  the `console` calls.
- AppState.App.HandleInputChange: takes the field alone, and the field's section follows
  from it. In the code, a section name that does not match the field would add a
  thirteenth key. Every call site passes a matching pair of literals, so this case is not
  representable in the model.
- Progress.RoundedPercent: computed on exact rationals, where JavaScript uses doubles. The
  result is the same, because 25n/3 never lies within rounding error of a half.
- Coherence.Prefix: counts Unicode scalar values. JavaScript's `substring` counts UTF-16
  code units, so the two differ on characters outside the Basic Multilingual Plane.
- Strings are sequences of characters. No encoding of the downloaded file is modelled.
