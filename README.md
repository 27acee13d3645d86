# Powerball_AU: draw preparation, prediction post-processing and the run trigger

This project models, in Dafny, the discrete logic of a small lottery
prediction service:

- **Draw records** (`scrape.dfy`, module `Scrape`). Each year's results
  page yields a list of main balls and a list of supplementary
  ("powerball") balls. The main balls are cut into chunks of seven. Each
  chunk is followed by the supplementary ball with the same index, or by the
  sentinel 0 when that list runs short. Pages whose response is not 200
  are skipped. `ExtractPage` and `CollectDraws` are the two loops of the
  script; they are proved equal to `PageRecords` and `AllRecords`.
- **The table and its cleaning** (`table.dfy`, module `Table`). The records
  become an eight-column table. A short record is padded with missing
  cells. A non-empty set of records whose widest member is not eight wide
  makes the table constructor fail, which is modelled as `None`. Cleaning
  drops every row with a missing cell and keeps the others in order.
- **Alternate-row pairing** (`pairing.dfy`, module `Pairing`). Rows 0, 2, 4, …
  become inputs and rows 1, 3, 5, … become targets, both truncated to the
  shorter length. `pipeline.dfy` (module `Pipeline`) composes the three
  steps. Its result: the training pairs are consecutive full draws, and
  there are ⌊F/2⌋ of them for F full draws.
- **Post-processing of a prediction** (`postprocess.dfy`, module
  `Postprocess`). Its input is the predictor's output vector after rounding
  to integers.
  - Each of the first seven values is clipped to [1, 35].
  - A value already taken is replaced by stepping up by one, wrapping from
    35 to 1, until a free value is found.
  - The eighth value is clipped to [1, 20] on its own.
  - `PostprocessPrediction` and its inner loop `FindFree` are proved against
    the functions `MainNumbers` and `Resolve`. The properties of the result
    are proved about those functions.
- **The run trigger** (`run_service.dfy`, module `RunService`). The run-state
  record (running, last start, last end, last status) and the `run_script`
  handler form a `Runner` class. Its `Accept` method (the guard) and
  `Complete` method (the end of a run) are proved to perform `Admit` and
  `Finish`; `RunScript` chains the two and performs `Step`. Calls that
  arrive while a run is in progress are whole calls taken between `Admit`
  and `Finish`.
  - A call while running is answered 409.
  - A missing script is answered 404.
  - Otherwise the run is marked as started. It ends "ok" (200) or "error"
    (500) with the running flag cleared.
  - The HTML body is assembled from the captured streams by `CombineSuccess`
    and `CombineFailure`.
  - The handler catches `Exception` only. A script that raises `SystemExit`
    or `KeyboardInterrupt` leaves the handler with the flag still set. The
    model has this as the `Escaped` outcome, and `StuckAfterEscape` shows
    that every later call is then answered 409.
  - `RunExclusive` shows that, at the granularity of whole guard steps, at
    most one run is in progress: every call overlapping an admitted run is
    answered 409 and leaves the record alone.

Two behaviours of the code are modelled as written:
- The last chunk of a page may hold fewer than seven main balls. It
  produces a short record, which the table pads and cleaning then drops.
- A run can end without clearing the running flag: the `Escaped` outcome
  above.

## Model

| member | source | states |
|---|---|---|
| Scrape.DrawRecord | script.py:20-22 | a record has 2 to 8 values and ends with the supplementary value for its index, or 0 past the end of the supplementary list |
| Scrape.PageRecords | script.py:19-22 | the records of one page; its contract is stated by ExtractPage, FlattenPrefix, MainBallsRoundTrip and RecordWidths |
| Scrape.ExtractPage | script.py:19-22 | the chunk loop yields exactly the page's records: ⌈n/7⌉ of them, record k being ball[7k .. min(7k+7, n)] followed by the supplementary value for k |
| Scrape.FlattenPrefix | script.py:19-20 | the main parts of the first k records, concatenated, are the first min(7k, n) main balls |
| Scrape.MainBallsRoundTrip | script.py:19-22 | concatenating the main parts of a page's records gives back its main-ball list: no ball is lost, duplicated or reordered |
| Scrape.RecordWidths | script.py:19-22 | a record is full (8 values) iff its chunk has 7 balls; every record but the last is full, and the last one is full iff n is a multiple of 7 |
| Scrape.AllRecords | script.py:10-22 | the records of all pages answered 200, in page order; stated by CollectDraws and Pipeline.AllRecordsWidths |
| Scrape.CollectDraws | script.py:11-22 | the scraping loop appends the records of every page answered 200, page after page, and skips the others |
| Table.MaxWidth | script.py:24 | the width of the widest record: every record fits, and one record attains it |
| Table.BuildTable | script.py:24 | the eight-column table, or None for the column-count error; stated by BuildThenClean |
| Table.Pad | script.py:24 | a record as an 8-cell row: its values in place, missing cells after them |
| Table.Values | script.py:33 | a complete row converted to integers keeps every value in place |
| Table.DropIncomplete | script.py:31-33 | dropna over all columns and the conversion to integers; stated by KeptExactly, CleanedInOrder and DropPadded |
| Table.KeptRows | script.py:33 | the rows cleaning keeps are complete rows, listed in strictly increasing position |
| Table.KeptExactly | script.py:31-33 | row i is kept iff it has no missing cell |
| Table.CleanedInOrder | script.py:31-33 | the j-th cleaned row holds the values of the j-th kept row, so relative order is preserved |
| Table.DropPadded | script.py:24-33 | cleaning the padded rows leaves exactly the full records, in order |
| Table.BuildThenClean | script.py:24-33 | building the table fails iff there are records and none is full; otherwise the cleaned table is the full records, in order |
| Pairing.EveryOther | script.py:36 | s[::2] has ⌈N/2⌉ elements and its i-th element is s[2i] |
| Pairing.OddPositions | script.py:37 | s[1::2] has ⌊N/2⌋ elements and its i-th element is s[2i+1] |
| Pairing.AlternatePairs | script.py:36-39 | even rows and odd rows truncated to the shorter length; stated by AlternatePairsShape |
| Pairing.AlternatePairsShape | script.py:36-39 | ⌊N/2⌋ inputs and ⌊N/2⌋ targets; input i is row 2i and target i is row 2i+1; for odd N the last row is unused |
| Pipeline.AllRecordsWidths | script.py:11-22 | every scraped record holds between 2 and 8 values |
| Pipeline.TrainingPairs | script.py:10-39 | records, table, cleaning and pairing composed; stated by PreparedPairs |
| Pipeline.PreparedPairs | script.py:11-39 | preparation fails iff there are records and none is full; otherwise, for the full records F in scraping order, there are ⌊\|F\|/2⌋ pairs and pair i is F[2i] followed by F[2i+1] |
| Postprocess.Clip | script.py:79 | the result lies in [lo, hi] and no point of [lo, hi] is nearer to the input |
| Postprocess.Advance | script.py:82-84 | one turn of the collision loop: up by one, from 35 back to 1; stated through Probe and ProbeModular |
| Postprocess.Probe | script.py:81-84 | after any number of turns of the wrap-around step the value is in [1, 35] |
| Postprocess.ProbeModular | script.py:82-84 | k turns from start give (start − 1 + k) mod 35 + 1 |
| Postprocess.ProbeInjective | script.py:81-84 | the first 35 turns from a start visit 35 different values |
| Postprocess.ProbedCount | script.py:81-84 | if the first k probes are all taken, at least k values are taken |
| Postprocess.FreeStep | script.py:81-84 | with fewer than 35 values taken, a free value is found within 35 turns; every probe before it is taken |
| Postprocess.Resolve | script.py:79-84 | the resolved value is in range and free; every value passed on the way from the clipped value is taken; a free clipped value is kept |
| Postprocess.MainNumbers | script.py:76-86 | one main number per position |
| Postprocess.MainNumbersValid | script.py:76-86 | for every integer input, including all-equal or out-of-range ones, the main numbers lie in [1, 35] and are pairwise distinct |
| Postprocess.MainNumbersPrefix | script.py:78-86 | the first i main numbers depend only on the first i positions |
| Postprocess.MainNumberAt | script.py:79-86 | position i keeps clip(pred[i], 1, 35) when it is not among the earlier main numbers; otherwise it is the first value, stepping up with wrap-around, not among them |
| Postprocess.FindFree | script.py:81-84 | the collision loop terminates and returns the resolved value for its start and taken set |
| Postprocess.PostprocessPrediction | script.py:73-88 | seven main numbers, pairwise distinct and in [1, 35], equal to MainNumbers; the supplementary number is clip(pred[7], 1, 20), not compared with the main numbers |
| RunService.Admit | app.py:36-46 | the guard: busy check, then file check, then the record of a started run; stated by BusyFirst, MissingScript and RunExclusive |
| RunService.Finish | app.py:56-87 | the end of an admitted run; stated by AcceptedOutcome and StepConsistent |
| RunService.Step | app.py:33-87 | one whole call, the guard then the end of the run; stated by BusyFirst, MissingScript, AcceptedOutcome and StepConsistent |
| RunService.Steps | app.py:33-87 | successive calls on the record each one leaves; stated by IdleThroughout and BusyWhileRunning |
| RunService.BusyFirst | app.py:36-37 | while running, every call is answered 409 "busy" with the record unchanged, whether or not the script file exists |
| RunService.MissingScript | app.py:39-41 | when idle and the script file is absent, the answer is 404 and the record is unchanged |
| RunService.AcceptedOutcome | app.py:43-87 | an accepted call records its start; a finished run ends "ok" with code 200, an end time and the flag cleared; a raised run ends "error" with code 500, an end time and the flag cleared; an escaped run leaves the flag set |
| RunService.StepConsistent | app.py:14-87 | the initial record and every record a call leaves are consistent: while running there is a start and no end or status; otherwise an end comes with a status and a start |
| RunService.IdleThroughout | app.py:36-87 | for successive calls none of which overlaps another, starting idle and as long as no run escapes, every call leaves the flag cleared and none is answered busy |
| RunService.BusyWhileRunning | app.py:36-37 | while the flag is set, every call is answered busy and the record never changes |
| RunService.RunExclusive | app.py:35-46 | at the granularity of whole guard steps, at most one run is in progress: after a call is admitted, every call arriving before its script is done is answered busy and leaves the record unchanged, and the admitted run then ends as a lone call would |
| RunService.StuckAfterEscape | app.py:50-74 | a run that escapes the handler leaves the flag set, and every later call is answered busy with the record frozen |
| RunService.SuccessText | app.py:59-65 | the output of a finished run; stated by PlaceholderExactly and SuccessSections, and built by CombineSuccess |
| RunService.ErrorText | app.py:76 | the captured stderr followed by the exception text; stated by FailureSections |
| RunService.FailureText | app.py:76-81 | the output of a run that raised; stated by FailureSections, and built by CombineFailure |
| RunService.PlaceholderExactly | app.py:59-65 | the placeholder text is the output exactly when both streams are empty |
| RunService.SuccessSections | app.py:59-65 | the STDOUT section (header, stdout, line break) leads the output iff stdout is non-empty, and a STDERR section follows it iff stderr is non-empty; with stdout empty the STDERR section leads the output iff stderr is non-empty; unless both streams are empty, the output is those sections and nothing else |
| RunService.FailureSections | app.py:76-81 | the failure output always ends with the ERROR section (stderr, the exception, a blank line); the partial STDOUT section (header, partial stdout, line break) leads it iff partial output exists, and the output is exactly those two sections with nothing between them |
| RunService.CombineSuccess | app.py:59-65 | the step-by-step assembly, with its strip test, yields the success text |
| RunService.CombineFailure | app.py:76-81 | the step-by-step assembly yields the failure text |
| RunService.Runner.constructor | app.py:14-19 | the record starts idle: not running, no start, end or status |
| RunService.Runner.Accept | app.py:36-46 | the guard's updates of the record and its answer are exactly those of Admit; a rejected call leaves the record unchanged |
| RunService.Runner.Complete | app.py:56-87 | the end-of-run updates of the record and the answer are exactly those of Finish |
| RunService.Runner.RunScript | app.py:33-87 | the handler leaves the record and answers exactly as Step says |

## Left out

- Fetching the pages and parsing their HTML (script.py:12-17) are not modelled. A page is given as its response status and the two lists of ball values, already read as integers. Ball text that is not a number makes `int()` raise in the source; the model does not cover that.
- The per-column `pd.to_numeric` loop (script.py:31-32) is not a separate operation: on cells that are integers or missing it changes nothing. The float round trip of padded columns before `astype(int)` is exact for ball values and is not modelled either.
- `BuildTable`: the table constructor's error is modelled as `None` rather than as an exception that ends the script.
- Min-max scaling, the neural network, training and `predict_from_last_draw` (script.py:44-70, 91-101) are not modelled: they are floating-point numerics and library calls. For the same reason the post-processor takes the vector after `np.rint` (script.py:75) as its input.
- PostprocessPrediction: a vector of fewer than eight values (an IndexError in the source) is excluded by its precondition. The 64-bit integer conversion of `astype(int)` is not modelled; values are unbounded integers.
- The commented-out plotting block (script.py:104-110) is not modelled.
- The `home` and `status` routes (app.py:21-31) only report the record; they are not modelled. The script file name from the environment (app.py:12), the timestamps of `time.strftime` and the existence test are parameters.
- Executing the script with `runpy`, and redirecting its streams, are abstracted as an `Execution` outcome. Exception text is given as its `repr` string.
- Concurrency is modelled only at the granularity of whole guard steps. A call that overlaps a run is taken between the run's `Admit` and `Finish` (`RunExclusive`). The web server may serve calls on several threads, and the check-then-set at app.py:36-43 is not atomic. Two calls that both pass the busy check before either sets the flag are not represented, and neither is a status read while a run is in progress.
- IsSpace: covers every ASCII character `str.strip` removes (space, tab to carriage return, and 0x1C to 0x1F); the non-ASCII Unicode white space it also removes is not covered. This does not affect the result, because every non-empty assembled output starts with `=`.
- PowerBall_AU/app.py is not part of this model. It is a variant of the trigger that runs the script on a background thread at start-up.
