# Real-estate contract extractor: job list, intake filter and report

This project models the bookkeeping core of a browser tool that extracts data from
real-estate purchase contracts. The user drops PDF contracts on a drop zone. Each
accepted file becomes a job in an ordered list. A processing run sends the file of
every pending job to an external extraction service, one job at a time. It marks the
job `processing` and then `success` (with the extracted record) or `error` (with a
message). On demand, the jobs that succeeded are flattened into a 26-column
spreadsheet report.

The model has five modules, one per file:

- `Types` (`types.dfy`) holds the records: the file handle, the extracted record with its four
  optional groups (buyer, spouse, income, property) and the job.
- `Intake` (`dropzone.dfy`) holds the drop zone's MIME filter and its forwarding rule.
- `Jobs` (`app.dfy`) holds the job list.
  - The pure part says how files become pending jobs, which positions a run visits,
    what one job becomes, and which views may be published.
  - The component itself is the class `App`. Its two state fields, `results` and
    `isProcessing`, are reassigned by its methods.
  - `ProcessFiles` is a loop proved against the specification function `ProcessAll`.
  - It also returns, as ghost, the trace of every view it publishes. That makes
    properties of intermediate states statable: one job changes at a time, no status
    moves backwards, and the flag is set throughout the run.
- `Report` (`excel_generator.dfy`) holds the success filter, the early return, row
  flattening, and the column widths and workbook metadata given to the spreadsheet library.
- `Pipeline` (`pipeline.dfy`) holds properties spanning modules: what dropping files does
  to the list, and how the report's row count relates to the successful jobs.

The extraction service is an oracle. `outcomes[i]` is what encoding and extracting the
file of job `i` yields: `Ok(reply)`, or `Fail(thrown)`.

- The reply is stored unvalidated, as the code stores the parsed JSON. `Ok(None)` is a
  falsy reply (`null`, `false`, `0`, `""`): the job succeeds but carries no data.
  Any truthy reply is a record whose groups and fields may each be absent.
- `thrown` is `Some(message)` for a thrown `Error` and `None` for any other thrown value.
  In the second case the job records the fixed message "Falha na extração".

The model follows the code exactly, including where it does less than one might expect:

- A pending job without an attached file is skipped and stays pending.
- A job that is already `processing` when a run starts is not touched.
  So "every job ends in success or error" holds exactly when every pending job has its
  file and none is processing (`Jobs.RunFinishesEveryJobIff`). `App` keeps the stronger
  invariant `Valid`. It also asks that every job has its file and every failed job its
  message, and the list stays valid under it.
- A report row needs status `success` and extracted data that is present. A falsy reply
  gives a successful job without a row (`Pipeline.FalsyReplyScenario`). So "rows equal
  successes" holds only when every successful job carries data
  (`Pipeline.ExportCountsSuccessfulJobs`).
- Absent or empty fields become the empty string, except the spouse name, which
  becomes "N/A".

`Pipeline.ClearThenProcessScenario` is a small client of `App`. It enqueues five files,
declines and then confirms a clear, and runs processing over the empty list. The verifier
checks its assertions: the list is empty, the flag is cleared, and nothing is pending or
successful.

## Model

| member | source | states |
|---|---|---|
| Intake.PdfFiles | components/Dropzone.tsx:15-17 | A file is kept if and only if it was dropped and its MIME type is exactly "application/pdf"; nothing is added |
| Intake.PdfFilesAppend | components/Dropzone.tsx:15-17 | Filtering distributes over concatenation, so the kept files keep their original relative order |
| Intake.PdfFilesOfPdfs | components/Dropzone.tsx:15-17 | A list holding only PDFs passes the filter unchanged |
| Intake.Forward | components/Dropzone.tsx:18-20 | The callback is called if and only if some file is a PDF, and then with exactly the filtered, non-empty list |
| Intake.HandleDrop | components/Dropzone.tsx:10-24 | While disabled nothing is forwarded; otherwise forwarded if and only if a PDF was dropped, with exactly the PDFs |
| Intake.HandleFileInput | components/Dropzone.tsx:25-33 | A disabled zone or a missing file list forwards nothing; otherwise as for a drop |
| Intake.MixedDropForwardsOnlyPdf | components/Dropzone.tsx:15-19 | A PDF dropped with a text file: the callback receives only the PDF |
| Jobs.Enqueue | App.tsx:14-25 | Appends one job per file, in order, each pending with the file's name and handle and no data or error; the existing jobs are unchanged |
| Jobs.MarkProcessing | App.tsx:41 | The job is published as processing; name, file, data and error are kept |
| Jobs.Complete | App.tsx:49-67 | A reply makes the job successful with the reply as its data and its error kept; a thrown value makes it failed with the Error's message or "Falha na extração", its data kept; name and file are kept in both cases |
| Jobs.Settle | App.tsx:34-68 | A job changes if and only if it is pending and has a file; it then goes through processing to success with the returned record, or to error with the thrown message or "Falha na extração"; name and file are kept |
| Jobs.ProcessAll | App.tsx:27-72 | The list after a run has the snapshot's length |
| Jobs.DropUnmarked | App.tsx:30-32 | Removing the -1 marks keeps exactly the other marks, and keeps them ascending |
| Jobs.PendingIndices | App.tsx:30-32 | The visited positions are exactly the pending positions of the snapshot, in range and strictly ascending |
| Jobs.UpdateAtIsSingle | App.tsx:39-43 | Replacing one job by a legal transition of it is a single update of the list |
| Jobs.VisitKeepsSettled | App.tsx:34-68 | Handling one more pending position keeps the list settled exactly on the visited positions; skipping a job without a file needs no update |
| Jobs.SettledEverywhere | App.tsx:34-69 | Once all pending positions are visited the list equals the result of the whole run |
| Jobs.UpdateAtKeepsOrder | App.tsx:30-47 | Changing the job at a position, when every earlier pending position has been handled and no later one has, publishes a view in which every earlier pending job with a file has finished |
| Jobs.ExtendTrace | App.tsx:38-67 | Publishing a view that is a single update and leaves non-pending jobs alone keeps the trace properties, including that jobs run one at a time in position order |
| Jobs.CloseRun | App.tsx:69-71 | Clearing the flag once every pending position has been visited leaves the list the whole run prescribes and completes the run's trace |
| Jobs.OneJobInFlight | App.tsx:34-47 | In no view of a run are two of the jobs it runs shown as processing at once, since each extraction is awaited before the next job starts |
| Jobs.ChainNeverMovesBackwards | App.tsx:34-69 | Along the published views the list length is constant, no job's status moves backwards, and a job in success or error never changes again |
| Jobs.AnyWithStatus | App.tsx:84-85 | True if and only if some job has the given status |
| Jobs.CountWithStatus | utils/excelGenerator.ts:6-11 | The number of jobs with the status, as the occurrences of it among the jobs' statuses; at most the length, zero if and only if no job has it, the length if and only if all have it. It is the success count that the report's row count is compared with |
| Jobs.ProcessAllTouchesOnlyPending | App.tsx:30-69 | A run keeps every file name, leaves non-pending jobs unchanged, finishes every pending job that has a file, and leaves a pending job without a file as it was |
| Jobs.FailureIsolation | App.tsx:45-68 | The final state of a job does not depend on any other job's outcome, so one failure does not stop the others |
| Jobs.ProcessAllSettlesConsistentList | App.tsx:27-72 | From a list where every job has its file, none is processing and every failed job has its message, every job ends in success or error and the list stays so |
| Jobs.RunFinishesEveryJobIff | App.tsx:30-68 | After a run every job is in success or error if and only if, before it, no job was processing and every pending job had its file |
| Jobs.ProcessAllWithoutPendingIsNoOp | App.tsx:30-36 | A run over a list with nothing pending changes nothing |
| Jobs.NetworkTimeoutScenario | App.tsx:45-68 | Of two jobs, the first failing with "Network timeout" ends in error with that message while the second still succeeds |
| Jobs.App.constructor | App.tsx:11-12 | The component starts with an empty list, not processing, and valid |
| Jobs.App.HasPending | App.tsx:84 | True if and only if some job is pending |
| Jobs.App.HasSuccess | App.tsx:85 | True if and only if some job succeeded |
| Jobs.App.HandleFilesSelected | App.tsx:14-25 | The list becomes the old list followed by one pending job per file; the flag and validity are kept |
| Jobs.App.HandleClear | App.tsx:78-82 | Once confirmed the list is empty; otherwise nothing changes |
| Jobs.App.OnDrop | App.tsx:100-103 | A drop enqueues exactly what the drop zone forwards, with the zone disabled while processing |
| Jobs.App.OnFileInput | App.tsx:100-103 | A file-input selection enqueues exactly what the drop zone forwards |
| Jobs.App.RunJob | App.tsx:38-67 | One job is published as processing, then as success or error; each step is a single update of the list |
| Jobs.App.VisitPending | App.tsx:34-68 | One iteration: a pending job without a file is skipped, any other is shown as processing and then finished; the list stays settled on the visited positions and the published views keep the run's trace properties, including that no later job is touched before every earlier one with a file has finished |
| Jobs.App.VisitAll | App.tsx:34-69 | The loop visits the snapshot's pending positions in ascending order: in every published view, once a job has been touched, every earlier pending job with a file has finished. Afterwards the list is settled on all of them, each one with a file has been shown as processing, and the flag stayed set |
| Jobs.App.ProcessFiles | App.tsx:27-72 | The list ends as the whole run prescribes and the flag ends cleared. The published views form a run trace: the flag is set between the first and the last view, each view is a single legal update of the one before, non-pending jobs are never touched, every pending job with a file is shown as processing at some point, and the jobs run one at a time in position order (no later job is touched before every earlier pending job with a file has finished). A valid list ends valid with every job finished |
| Report.PositionsMatch | utils/excelGenerator.ts:16-51 | The column table has 26 entries, and each column stands at its own position, so each is listed once |
| Report.HeaderInjective | utils/excelGenerator.ts:16-51 | Different columns have different keys |
| Report.HeadersAreDistinct | utils/excelGenerator.ts:16-51 | The 26 column keys are distinct, so no column overwrites another |
| Report.ValidResults | utils/excelGenerator.ts:6 | A job is kept if and only if it is in the list, succeeded and has data |
| Report.ValidResultsAppend | utils/excelGenerator.ts:6 | The success filter distributes over concatenation, keeping the jobs' order |
| Report.ValidResultsIdempotent | utils/excelGenerator.ts:6 | Filtering twice is filtering once |
| Report.FlattenRow | utils/excelGenerator.ts:11-52 | A row has the 26 columns in order, the file name first, and each field's text when present and non-empty, else "N/A" for the spouse name and "" for any other column |
| Report.MissingSpouseScenario | utils/excelGenerator.ts:34-40 | Without spouse data the spouse-name column reads "N/A" and the six other spouse columns are empty |
| Report.ColumnWidth | utils/excelGenerator.ts:57 | The width is the larger of 20 and the key's length plus 5 |
| Report.ColumnWidths | utils/excelGenerator.ts:57 | One width per key of the row, in key order, each the larger of 20 and the key length plus 5 |
| Report.BuildRows | utils/excelGenerator.ts:11-52 | One row per qualifying job, in order, each that job's flattened record |
| Report.ReportOf | utils/excelGenerator.ts:8-63 | Given the qualifying jobs: no workbook if and only if there are none; otherwise sheet "Relatório Dados" in "Relatorio_Extracao_Imoveis.xlsx", one flattened row per job in order, and each of the 26 widths derived from its column's key |
| Report.GenerateExcelReport | utils/excelGenerator.ts:4-63 | No workbook if and only if no job qualifies; otherwise sheet "Relatório Dados" in "Relatorio_Extracao_Imoveis.xlsx", one row per qualifying job in order, and the width of each of the 26 columns derived from its key |
| Report.NonQualifyingIgnored | utils/excelGenerator.ts:6 | Inserting a job that does not qualify anywhere in the list leaves the report unchanged |
| Report.ExportDependsOnlyOnQualifying | utils/excelGenerator.ts:6-8 | Exporting only the qualifying jobs gives the same report as exporting the whole list |
| Pipeline.DropEnqueuesExactlyThePdfs | components/Dropzone.tsx:10-24 | After a drop the old jobs are kept; one pending job is added per dropped PDF, in drop order, and none for other files or while disabled |
| Pipeline.PdfAndTextScenario | components/Dropzone.tsx:15-19 | A PDF and a text file dropped on an empty list give exactly one pending job, for the PDF |
| Pipeline.ExportCountsSuccessfulJobs | utils/excelGenerator.ts:6 | When every successful job carries data, the report has exactly one row per successful job |
| Pipeline.ProcessedListExportsEverySuccess | App.tsx:27-72 | After a run over a valid list, successes plus errors are all the jobs. When the earlier successes carry data and every reply of the run is a record, the report has one row per success |
| Pipeline.FalsyReplyScenario | App.tsx:47-55 | A falsy reply leaves the job successful without data, and the export then produces nothing |
| Pipeline.TerminalCountsAddUp | App.tsx:49-67 | In a list where every job has finished, the successes and errors together are all the jobs |

## Left out

- The extraction service and the file encoder are not modelled. Their combined result is the `outcomes` parameter: no network, base64 encoding, schema or model prompt.
- The extracted record is taken as the service returns it. The model covers a falsy reply and a record with missing groups or fields. It also covers a truthy reply that is not an object: optional chaining reads every group of it as `undefined`, which is the record with every group absent. It does not cover a JSON value other than a string in a leaf.
- The spreadsheet library is not modelled. The model stops at the rows, widths, sheet name and file name handed to it; the binary workbook and the download are left out.
- The confirmation dialog of clearing is modelled as the boolean answer `confirmed`.
- Asynchrony and React's batching of state updates are not modelled. Each `setResults` update is applied at once and recorded as one published view. The stale-closure read of `results` inside the loop is the run's snapshot, which the component keeps unchanged because intake and clearing are disabled while a run is under way.
- `preventDefault` on drag events, the drag-over handler and all rendering are left out. This covers the job list view, the buttons, and the export and clear buttons' disabled states.
- `Jobs.ProcessAll`: its own contract states only the length. What a run does to each job is stated by `Jobs.Settle` and the lemmas about `ProcessAll`.
