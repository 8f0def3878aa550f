# zimusyoku back office, modelled in Dafny

zimusyoku is a Python back end for a small office's paperwork. Invoices and receipts are uploaded as jobs. An OCR worker reads their text, amounts and structured fields, and a classifier picks a category, an account and the gross, tax and net amounts. The result is posted to an accounting journal, and the job waits for approval. Approved jobs can be synced to the freee and Yayoi accounting services or paid through a bank. Exports are a PDF invoice table and a journal CSV. A dashboard summary aggregates the journal.

This project models that core in Dafny 4.11 and proves properties of the model. One module corresponds to each core source file:

- `Jobs`, `Repo` and `Approvals` model the JSON-backed stores. Each is a class whose persisted list is a `seq` field.
- `RoutesApprovals`, `RoutesIntegrations` and `RoutesExport` model the HTTP handlers' control flow.
- `Classify`, `Accounting` and `Summary` model the accounting rules.
- `Worker` models the pipeline task. Its success path is modelled as intended (`Worker.Succeed`) and as written (`Worker.SucceedAsWritten`, which fails the job).
- `OcrText`, `Details`, `Amounts` and `Recognize` model OCR post-processing.
- `Normalizer` models ledger-row normalisation.
- `Config` models the settings, with `Path.resolve()` as a walk over path components.
- `Freee`, `Yayoi`, `Bank` and `Ledger` model the mock integration clients.

The shared modules give Python semantics where the model needs them:

- `Wrappers`: Python exceptions become typed `Err` values.
- `Values`: JSON-like values with truthiness.
- `Text`: string methods.
- `Numbers`: `int()` and `float()` of plain decimals, `str()`, `repr()` and `round()`.
- `Timestamps`: the three date-time text forms.
- `Csv`, `Sorting`, `Buckets` and `Scan`: the csv writer, stable sorting, running totals per key, and hand-coded regular-expression pieces.

Money is an exact `real` or integer yen. The clock, random ids, the environment and every file are parameters or class fields.

## Model

| member | source | states |
|---|---|---|
| Accounting.PostingOf | services/accounting/main.py:42-56 | the gross amount is `float()` of the first truthy of `amount`, `amount_gross`, 0.0; the net falls back to the gross amount when neither `net_amount` nor `amount_net` is truthy; the debit, credit and tax accounts fall back to 雑費, 未払金 and 仮払消費税等 |
| Accounting.GeneratedTotals | services/accounting/main.py:57-83 | the generated lines debit round(net, 2) + round(tax, 2) and credit round(amount, 2) |
| Accounting.GeneratedBalanced | services/accounting/main.py:57-83 | when net, tax and gross are whole cents and net + tax equals gross, the generated entry balances: debits equal credits |
| Accounting.GeneratedShape | services/accounting/main.py:57-83 | one line per nonzero amount, the net debit first and the gross credit last, the tax line present exactly when the tax is nonzero, and no line both debits and credits |
| Accounting.JournalLinesOf | services/accounting/main.py:40-41 | truthy `journal_lines` in the classification are stored unchanged |
| Accounting.EntryFor | services/accounting/main.py:85-104 | building the entry fails exactly when one of the seven required classification keys is missing, and then with a `KeyError` for a missing key |
| Accounting.EntryForFields | services/accounting/main.py:85-104 | the entry is in JPY and carries the journal lines, the `recorded_at` stamp and the job id it was given |
| Accounting.EntryForAmounts | services/accounting/main.py:85-104 | the entry copies `amount_gross` from the classification, and `amount` is the first truthy of `amount` and `amount_gross` |
| Accounting.EntryForLabels | services/accounting/main.py:85-104 | the entry copies `category` and the `debit_account` lookup from the classification |
| Accounting.BuildLines | services/accounting/main.py:57-83 | the appended debit, tax and credit lines, each only for a nonzero amount, are exactly the generated lines |
| Accounting.Journal.PostJournalEntry | services/accounting/main.py:30-109 | the result is the posted entry stamped with the current time to the second plus `Z`; on success the entry is appended after the existing journal entries, and on an error the journal is unchanged |
| Accounting.Journal.constructor | services/accounting/main.py:17-22 | the journal holds the entries read from the journal file (none when there is no file) |
| Summary.MonthText | services/accounting/main.py:119 | `strftime("%Y-%m")` is seven characters with the `-` at index 4 |
| Summary.MonthOf | services/accounting/main.py:146-147 | the month of a stamp succeeds exactly when the stamp is text and, with every `Z` removed, is one of the two fixed-width forms `isoformat()` writes (`YYYY-MM-DDTHH:MM:SS`, optionally with `.ffffff`), and it is then that date-time's `%Y-%m` |
| Summary.Key | services/accounting/main.py:143-145 | a value can key the totals exactly when it is not a list or a dictionary (those are unhashable), and it keys as itself |
| Summary.MakeRow | services/accounting/main.py:140-148 | a row is read exactly when the amount, category, account and month steps all succeed, and it holds their four results |
| Summary.RowOfFields | services/accounting/main.py:140-148 | an entry's row fails exactly when one of its four steps does; the amount is `float()` of the first truthy of `amount`, `amount_gross` and 0.0; the category falls back to 不明 and otherwise is the entry's own |
| Summary.RowWithoutStamp | services/accounting/main.py:146 | an entry without `recorded_at` always fails, because the empty default is not an ISO date-time |
| Summary.MonthOfRecordedAt | services/accounting/main.py:38 | a stamp written by `post_journal_entry` reads back as the month of its own date-time |
| Summary.Collect | services/accounting/main.py:139-148 | a run over the entries that succeeds gives one row per entry |
| Summary.RowsOf | services/accounting/main.py:139-148 | the rows of all entries, when they succeed, are one per entry |
| Summary.CollectOk | services/accounting/main.py:139-148 | collecting succeeds exactly when every step does, and then each row is the corresponding step's row |
| Summary.CollectFirstError | services/accounting/main.py:139-148 | the error raised is that of the first step that fails |
| Summary.RowsOfOk | services/accounting/main.py:139-148 | the loop over the entries succeeds exactly when every entry's row does, and it then yields those rows in order |
| Summary.RowsOfFirstError | services/accounting/main.py:139-148 | the loop's error is that of the first entry whose row fails |
| Summary.RowsOfAppend | services/accounting/main.py:139-148 | one more good entry extends the rows by its row |
| Summary.TotalsPartition | services/accounting/main.py:134-148 | the category, account and month totals each add up to the total spend, and none of the three dictionaries holds a key twice |
| Summary.CategoryTotals | services/accounting/main.py:142-143 | a category has a total exactly when some entry has that category, and the total is the sum of those entries' amounts |
| Summary.AccountTotals | services/accounting/main.py:144-145 | an account has a total exactly when some entry debits it, and the total is the sum of those entries' amounts |
| Summary.MonthTotals | services/accounting/main.py:146-148 | a month has a total exactly when some entry was recorded in it, and the total is the sum of those entries' amounts |
| Summary.StepTotals | services/accounting/main.py:139-148 | one turn of the loop adds the entry's amount to the total and to its category, account and month |
| Summary.Rounded | services/accounting/main.py:150-155 | each item keeps its key and has its value rounded to the given number of digits |
| Summary.Ratios | services/accounting/main.py:156-161 | one ratio per category, in the ranking's order |
| Summary.Top | services/accounting/main.py:166-171 | `[:5]` keeps the first five items, or all of them when there are fewer |
| Summary.FirstMonth | services/accounting/main.py:131-132 | the report month fails with `KeyError('recorded_at')` when the first entry lacks the key, and is otherwise that entry's month |
| Summary.Summarize | services/accounting/main.py:131-191 | the report of a non-empty journal succeeds exactly when its month and all rows do, and otherwise carries the first error |
| Summary.ApprovedCount | services/accounting/main.py:179 | the approved records are at most all records |
| Summary.Share | services/accounting/main.py:180 | the share of a count out of a positive total lies between 0 and 1, is 1 for all and 0 for none |
| Summary.ApprovalRateBounds | services/accounting/main.py:173-180 | the approval rate lies between 0 and 1, is 1 when every record is approved and 0 when none is |
| Summary.UnitRound | services/accounting/main.py:180 | rounding keeps a value in [0, 1] inside [0, 1] and keeps 0 and 1 exact |
| Summary.ApprovalRateAsWrittenIgnoresStore | services/accounting/main.py:173-180 | with one approved record stored, the code as written reports a rate of 0 while the intended rate is 1 |
| Summary.SummaryEmpty | services/accounting/main.py:118-129 | an empty journal gives the zero report for the current month |
| Summary.SummaryFailures | services/accounting/main.py:131-148 | the summary fails with `KeyError('recorded_at')` when the first entry lacks it, and otherwise succeeds exactly when the first month and every entry's row do |
| Summary.SummaryHeadline | services/accounting/main.py:182-191 | a report counts the entries, has the rounded sum of their amounts as total spend, the approval rate, and the first entry's month |
| Summary.BreakdownRanked | services/accounting/main.py:150-161 | the breakdown has each category once, with its rounded total, largest first, and the ratios list the same categories in the same order |
| Summary.RatiosShares | services/accounting/main.py:156-161 | with no negative amount every category ratio lies between 0 and 1, and every ratio is 0 when the total is 0 |
| Summary.RatioShare | services/accounting/main.py:157 | a value between 0 and a nonzero total gives a rounded ratio between 0 and 1 |
| Summary.MonthlyAscending | services/accounting/main.py:162-165 | the monthly totals hold each month once, in strictly ascending order, each with its rounded total |
| Summary.TopAccountsLargest | services/accounting/main.py:166-171 | at most five accounts, each once and taken from the totals, largest first, and no account left out rounds above a listed one |
| Summary.TopOfRanking | services/accounting/main.py:166-171 | the first five of a ranking keep its keys and order, and nothing after them rounds above any of them |
| Summary.RankOf | services/accounting/main.py:168-170 | every account's item appears in the sorted ranking |
| Summary.Accumulate | services/accounting/main.py:134-148 | the loop yields the totals of all rows when every entry is good, and otherwise the error of the first entry that fails |
| Summary.FirstFailure | services/accounting/main.py:139-148 | an entry that fails after a run of good ones determines the error of the whole run |
| Summary.ComputeSummary | services/accounting/main.py:116-191 | the method's result is the summary of the journal, the approval records and the current month |
| Buckets.AddLookup | services/accounting/main.py:143 | `b[k] += x` adds `x` to the total of `k` and changes no other total |
| Buckets.AddSum | services/accounting/main.py:143 | `b[k] += x` adds `x` to the sum of all totals |
| Buckets.AddKeys | services/accounting/main.py:143 | `b[k] += x` keeps the keys in insertion order and appends `k` when it is new |
| Buckets.AddDistinct | services/accounting/main.py:143 | `b[k] += x` never duplicates a key |
| Buckets.GroupedLookup | services/accounting/main.py:139-148 | after filing a list of amounts, each key's total is the sum of the amounts filed under it |
| Buckets.GroupedSum | services/accounting/main.py:139-148 | after filing, the totals add up to the sum of every amount filed |
| Buckets.GroupedKeys | services/accounting/main.py:139-148 | after filing, every key appears once, and the keys are exactly those filed |
| Buckets.LookupBounds | services/accounting/main.py:157 | with no negative amount, each key's total lies between zero and the sum |
| Buckets.SortKeys | services/accounting/main.py:152-154 | sorting the items keeps the same keys, each once |
| Buckets.SortedEntry | services/accounting/main.py:152-154 | every sorted item is an item of the dictionary, with that key's total |
| Sorting.Insert | services/accounting/main.py:152-154 | inserting adds exactly the one element |
| Sorting.Sort | services/accounting/main.py:152-154 | `sorted` returns a permutation of its input (ordered by `SortSorted`, stable by `SortStable`) |
| Sorting.SortSorted | services/accounting/main.py:152-154 | for a total preorder, `sorted` returns an ordered permutation of its input |
| Sorting.InsertPeers | services/api/ocr/amounts.py:166 | inserting an element puts it before the elements equivalent to it that follow, and leaves their order alone |
| Sorting.SortStable | services/api/ocr/amounts.py:166 | `sorted` is stable: for any element, the elements equivalent to it come out in the order they went in |
| Sorting.PeersFirst | services/api/ocr/amounts.py:166 | the first element equivalent to `x` sits at an index before which no element is equivalent to `x` |
| Sorting.SortHead | services/api/ocr/amounts.py:166-176 | the first element of a sorted non-empty list is the earliest input element that may precede every element |
| Sorting.SortedPairwise | services/accounting/main.py:152-154 | in a sorted result every earlier element may come before every later one |
| Sorting.StrLeOrder | services/accounting/main.py:164 | string comparison is a total preorder, so sorting the months orders them |
| Approvals.AppendEvent | services/api/approvals.py:73-76 | appending extends the history by exactly the event and leaves the record's status and time those of its latest event |
| Approvals.NewRecord | services/api/approvals.py:48-52 | a new record is for the given job, with an empty history |
| Approvals.EventToDict | services/api/approvals.py:31-34 | an event is written as a JSON object |
| Approvals.TimeField | services/api/approvals.py:38 | a time read with `%Y-%m-%dT%H:%M:%SZ` is a valid date-time with no microseconds |
| Approvals.EventFromDict | services/api/approvals.py:37-44 | an event read back has a valid time with no microseconds |
| Approvals.EventRoundTrip | services/api/approvals.py:31-44 | an event written and read back is the same event with its time cut to whole seconds |
| Approvals.EventsToDicts | services/api/approvals.py:59 | the history is written one object per event, in order |
| Approvals.EventsFromDicts | services/api/approvals.py:64 | a history read back has one event per object, each read from its object |
| Approvals.RecordToDict | services/api/approvals.py:54-60 | a record is written as a JSON object |
| Approvals.StoredEvents | services/api/approvals.py:31-44 | each stored event is the event with its time cut to whole seconds |
| Approvals.EventsRoundTrip | services/api/approvals.py:59-64 | a history written and read back is the history with every time cut to whole seconds |
| Approvals.RecordRoundTrip | services/api/approvals.py:54-71 | a record written and read back is the record with every time cut to whole seconds |
| Approvals.RecordWithBack | services/api/approvals.py:65-71 | the job id, status and update time of a written record read back, around its history |
| Approvals.FindRecord | services/api/approvals.py:102-103 | the index found is the first record for the job; no index means no record has the job id |
| Approvals.UpsertExisting | services/api/approvals.py:102-107 | an upsert on a job with a record replaces only that job's first record, with the event appended |
| Approvals.UpsertNew | services/api/approvals.py:108-112 | an upsert on an unknown job appends one record whose history is just the event and whose status and time are the event's |
| Approvals.UpsertUnique | services/api/approvals.py:99-112 | upserting keeps job ids unique |
| Approvals.UpsertStatus | services/api/approvals.py:99-140 | after an upsert the job's status is the event's action, and every other job's status is unchanged |
| Approvals.FindSameIds | services/api/approvals.py:102-103 | the search depends only on the job ids, so a sequence that agrees on a prefix finds what the prefix finds |
| Approvals.UpsertFound | services/api/approvals.py:99-112 | after an upsert the job's first record sits where the old one did, or at the end when there was none |
| Approvals.FindRecordAt | services/api/approvals.py:102-103 | a record with the job id and none before it is the one found |
| Approvals.ListAllSorted | services/api/approvals.py:142-145 | `list_all` returns a permutation of the records, with the most recently updated first |
| Approvals.ApprovalStore.Record | services/api/approvals.py:114-126 | an unsupported action raises `ValueError` and leaves the store alone; otherwise the store is the upsert of an event at the current time, and the record returned is the job's stored record, ending with that event and with the action as its status; unique job ids stay unique |
| Approvals.ApprovalStore.Get | services/api/approvals.py:128-133 | `get` succeeds exactly when some record is for the job, returns the first such record, and otherwise raises `KeyError(job_id)` |
| Approvals.ApprovalStore.GetStatus | services/api/approvals.py:135-140 | `get_status` is the status of the job's first record, or pending when it has none |
| Approvals.ApprovalStore.ListAllRecords | services/api/approvals.py:142-145 | `list_all` returns the records sorted newest first |
| Approvals.ApprovalStore.constructor | services/api/approvals.py:82-92 | the store holds the records read from its file (none when there is no file) |
| Jobs.ToDict | services/api/jobs.py:45-49 | a job is written as a JSON object |
| Jobs.TimeField | services/api/jobs.py:26-27 | a time read with `%Y-%m-%dT%H:%M:%S.%fZ` is a valid date-time |
| Jobs.FromDict | services/api/jobs.py:52-66 | a job read from a record has valid submission and update times |
| Jobs.JobWith | services/api/jobs.py:53-66 | reading the optional fields keeps the submission and update times already read |
| Jobs.TimeBack | services/api/jobs.py:22-27 | a time written with `%Y-%m-%dT%H:%M:%S.%fZ` reads back as the same date-time, microseconds included |
| Jobs.RoundTrip | services/api/jobs.py:45-66 | a job written and read back is the same job; only the approval fields start afresh, since `from_dict` does not read them |
| Jobs.RestBack | services/api/jobs.py:60-65 | a written job's optional fields and metadata read back unchanged |
| Jobs.FindJob | services/api/jobs.py:107-108 | the index found is the first job with the id; no index means no job has it |
| Jobs.UpdatedFrame | services/api/jobs.py:104-114 | `_update` fails exactly when no job has the id; otherwise it replaces only the first such job, mutated and stamped with the current time, and keeps every other job in place |
| Jobs.MetadataMerged | services/api/jobs.py:140-144 | `set_metadata` takes the update's value for every key it names and keeps every other metadata key |
| Jobs.SubmittedLaterOrder | services/api/jobs.py:148 | ordering by submission time, latest first, is a total preorder |
| Jobs.ListJobsSorted | services/api/jobs.py:146-148 | `list_jobs` returns a permutation of the jobs, most recently submitted first |
| Jobs.CsvFields | services/api/jobs.py:178-191 | a job's row has one cell per header column, beginning with its id, and its status in the fourth column |
| Jobs.CsvBodyAppend | services/api/jobs.py:177-192 | exporting one more job appends exactly its row |
| Jobs.CsvBodyStep | services/api/jobs.py:177-192 | the rows written so far grow by the next job's row |
| Jobs.CsvFieldsNoEntry | services/api/jobs.py:178-188 | a job without a journal entry exports empty amount, tax and vendor cells |
| Jobs.JobStore.CreateJob | services/api/jobs.py:89-102 | `create_job` appends a queued job with a `JOB-` id from the random hex, with both times set to now and no results yet |
| Jobs.JobStore.Update | services/api/jobs.py:104-114 | `_update` raises `KeyError(job_id)` and leaves the store alone when no job has the id; otherwise the store becomes the updated sequence and the returned job is the stored one |
| Jobs.JobStore.UpdateStatus | services/api/jobs.py:116-121 | `update_status` sets the status and the error, resetting the error when none is given, through `_update` |
| Jobs.JobStore.StoreResult | services/api/jobs.py:123-138 | `store_result` sets the classification, OCR text, OCR fields and journal entry, through `_update` |
| Jobs.JobStore.SetMetadata | services/api/jobs.py:140-144 | `set_metadata` merges the update into the job's metadata, through `_update` |
| Jobs.JobStore.SetApproval | services/api/routes_approvals.py:49-54 | `set_approval` records the approval status and the history on the job, through `_update` |
| Jobs.JobStore.GetJob | services/api/jobs.py:150-155 | `get_job` succeeds exactly when some job has the id, returns the first such job, and otherwise raises `KeyError(job_id)` |
| Jobs.JobStore.ListAll | services/api/jobs.py:146-148 | `list_jobs` returns the jobs sorted by submission time, latest first |
| Jobs.JobStore.ExportCsv | services/api/jobs.py:157-193 | `export_csv` is the header followed by one row per listed job |
| Jobs.WriteRows | services/api/jobs.py:177-192 | the `writerow` loop writes exactly the rows of the listed jobs, in order |
| Jobs.NewId | services/api/jobs.py:93 | the id is `JOB-` followed by at most eight characters of the hex, and is twelve characters long when the hex has at least eight |
| Jobs.NewIdHex | services/api/jobs.py:93 | on lower-case hex digits the id's suffix is upper-case hex |
| Jobs.JobStore.constructor | services/api/jobs.py:72-82 | the store holds the jobs read from its file (none when there is no file) |
| RoutesApprovals.ToEventModels | services/api/routes_approvals.py:45 | one event model per event, in order |
| RoutesApprovals.RecordModelFaithful | services/api/routes_approvals.py:31-46 | the response model keeps the job id, status, update time and every event's action, actor, time and note, in order |
| RoutesApprovals.ListApprovalsNewestFirst | services/api/routes_approvals.py:61-67 | `list_approvals` answers one model per record, most recently updated first, each with its record's job and status |
| RoutesApprovals.SyncedJob | services/api/routes_approvals.py:49-58 | on a known job, `_sync_job` sets its approval status to the record's; its status becomes approved or rejected with the record and otherwise stays; no other job changes |
| RoutesApprovals.UpsertWritable | services/api/approvals.py:99-112 | recording an event keeps every stored record writable |
| RoutesApprovals.SyncJob | services/api/routes_approvals.py:49-58 | `_sync_job` leaves the job store as the synced jobs |
| RoutesApprovals.Decide | services/api/routes_approvals.py:70-107 | an unknown job answers 404 "Job not found" and changes nothing; otherwise the approval store records the decision, the response is the stored record, and the jobs are synced with it |
| RoutesApprovals.DecideAsWritten | services/api/routes_approvals.py:49-107 | as written: an unknown job is the 404 and changes nothing; for a known job the approval store records the decision and then the request fails with `AttributeError`, since the job store has no `set_approval` |
| RoutesIntegrations.Found | services/api/routes_integrations.py:38-44 | at most one job is found per requested id |
| RoutesIntegrations.Missing | services/api/routes_integrations.py:39-44 | at most one missing entry per requested id |
| RoutesIntegrations.Approved | services/api/routes_integrations.py:51-53 | the approved filter keeps at most the listed jobs |
| RoutesIntegrations.MissingExact | services/api/routes_integrations.py:40-44 | an id is reported missing exactly when it was requested and no stored job has it |
| RoutesIntegrations.FoundExact | services/api/routes_integrations.py:40-42 | with every id known, the selection holds, for each requested id in order, the first stored job with that id |
| RoutesIntegrations.ApprovedExact | services/api/routes_integrations.py:51-53 | the filter keeps exactly the jobs whose approval status is approved |
| RoutesIntegrations.SelectApproved | services/api/routes_integrations.py:50-58 | with no ids, the selection is exactly the approved stored jobs, and it fails exactly when no job is approved |
| RoutesIntegrations.SelectFromStore | services/api/routes_integrations.py:36-59 | a successful selection is never empty and holds only stored jobs |
| RoutesIntegrations.Select | services/api/routes_integrations.py:36-59 | a selection is never empty, and a selection by ids has one job per requested id |
| RoutesIntegrations.SelectJobs | services/api/routes_integrations.py:36-59 | `_select_jobs` answers 404 naming the missing ids, 400 when nothing is selected, and otherwise the selected jobs |
| RoutesIntegrations.NotReady | services/api/routes_integrations.py:63 | at most one id per job is named as not ready |
| RoutesIntegrations.EnsureApprovedExact | services/api/routes_integrations.py:62-68 | the approval gate passes exactly when every job is approved, and a refusal names exactly the ids of the jobs that are not |
| RoutesIntegrations.GatePassed | services/api/routes_integrations.py:78-79 | whatever passes the selection and the gate is a non-empty list of stored, approved jobs |
| RoutesIntegrations.GateJobs | services/api/routes_integrations.py:78-79 | selection followed by the gate, as both sync routes and the payment route run it |
| RoutesIntegrations.SyncStepShape | services/api/routes_integrations.py:83-92 | a job without a truthy journal entry is skipped; otherwise the step posts the next ledger entry and appends the job's id and receipt; the stored ids never change, and the step fails exactly for a posted job whose `sync` metadata is a truthy non-object or whose id is gone |
| RoutesIntegrations.SyncRunNext | services/api/routes_integrations.py:83-92 | until the loop fails, one more job is one more step |
| RoutesIntegrations.SyncRunStops | services/api/routes_integrations.py:83-92 | once an exception has been raised, later jobs are not looked at |
| RoutesIntegrations.SyncRun | services/api/routes_integrations.py:81-93 | the loop only appends to the ledger, the processed ids and the receipts, at most one id per job |
| RoutesIntegrations.Posting | services/api/routes_integrations.py:84-85 | the jobs posted are among those selected, each with a truthy journal entry |
| RoutesIntegrations.Ids | services/api/routes_integrations.py:87 | one id per job, in order |
| RoutesIntegrations.Entries | services/api/routes_integrations.py:86 | one ledger entry per posted job |
| RoutesIntegrations.Receipts | services/api/routes_integrations.py:88 | one receipt per posted job |
| RoutesIntegrations.SyncRunPosts | services/api/routes_integrations.py:81-93 | a loop that finishes has processed exactly the jobs with a truthy entry, in order, posting one numbered ledger entry and one receipt for each |
| RoutesIntegrations.SyncRunProcessed | services/api/routes_integrations.py:82-87 | a finished loop's `processed` is the ids of the posted jobs, in order |
| RoutesIntegrations.SyncRunLedger | services/api/routes_integrations.py:86 | a finished loop's ledger is the old ledger followed by one entry per posted job, numbered on from the old length |
| RoutesIntegrations.SyncRunReceipts | services/api/routes_integrations.py:88 | a finished loop's receipts are one per posted job, each with the app's response to that job's entry |
| RoutesIntegrations.StepReceipt | services/api/routes_integrations.py:86-88 | a posting step appends the receipt for the next ledger number |
| RoutesIntegrations.SyncRunKeepsIds | services/api/routes_integrations.py:89-92 | the loop only merges metadata, so the stored jobs keep their ids and positions |
| RoutesIntegrations.SyncRunSucceeds | services/api/routes_integrations.py:83-92 | the loop runs to the end when every job is stored and no posted job's `sync` metadata is a truthy non-object |
| RoutesIntegrations.SyncStepSucceeds | services/api/routes_integrations.py:83-92 | one iteration raises nothing for a stored job whose `sync` metadata, when it posts, is an object or falsy |
| RoutesIntegrations.SyncAnswer | services/api/routes_integrations.py:71-118 | after the gate, and with no posted job's `sync` metadata a truthy non-object, a sync answers with exactly the selected jobs that have a truthy entry, in order, with one receipt each |
| RoutesIntegrations.FreeeStep | services/api/routes_integrations.py:83-92 | one freee iteration changes the job store, the freee ledger and the two lists exactly as one loop step does, and keeps the token |
| RoutesIntegrations.SyncFreee | services/api/routes_integrations.py:71-93 | `sync_freee` refuses with the gate's error and changes nothing; otherwise the store, the freee ledger and the answer are those of the loop over the selected jobs |
| RoutesIntegrations.YayoiStep | services/api/routes_integrations.py:108-117 | one Yayoi iteration changes the job store, the Yayoi ledger and the two lists exactly as one loop step does, and keeps the token |
| RoutesIntegrations.SyncYayoi | services/api/routes_integrations.py:96-118 | `sync_yayoi` refuses with the gate's error and changes nothing; otherwise the store, the Yayoi ledger and the answer are those of the loop over the selected jobs |
| RoutesIntegrations.Payments | services/api/routes_integrations.py:131-142 | one payment per job, in order |
| RoutesIntegrations.PaymentFields | services/api/routes_integrations.py:134-142 | a payment carries the job id, the entry's vendor and credit account, and the entry's `amount` when truthy, else its `amount_gross` |
| RoutesIntegrations.BuildPayments | services/api/routes_integrations.py:131-143 | the loop builds one payment and one processed id per job, in order |
| RoutesIntegrations.ExecutePayments | services/api/routes_integrations.py:121-149 | `execute_payments` refuses with the gate's error and leaves the bank alone; otherwise it appends one batch holding every selected job's payment and answers with its id, the job ids and the request time |
| Freee.FromDict | services/integrations/freee_api.py:26-32 | a token read back has a valid expiry time |
| Freee.RoundTrip | services/integrations/freee_api.py:19-32 | a saved token loads back as the same token |
| Freee.LoadedUnexpired | services/integrations/freee_api.py:57-64 | a token `load_token` hands out expires after now |
| Freee.LoadedFresh | services/integrations/freee_api.py:44-59 | without a token file the token is `<seed>-access` / `<seed>-refresh`, the seed being `FREEE_API_KEY` or `freee-dev`, and expires two hours from now |
| Freee.LoadedStored | services/integrations/freee_api.py:60-79 | a stored token that has expired by now is replaced by `<refresh>-new` with the same refresh token and two more hours; an unexpired one is returned as stored |
| Freee.LoadStable | services/integrations/freee_api.py:57-69 | loading again at the same time, from the token just saved, gives the same token |
| Freee.FreeeClient.SaveToken | services/integrations/freee_api.py:66-69 | `save_token` writes the token file and leaves the ledger alone |
| Freee.FreeeClient.GenerateToken | services/integrations/freee_api.py:44-55 | `_generate_token` returns the fresh token and saves it, leaving the ledger alone |
| Freee.FreeeClient.RefreshToken | services/integrations/freee_api.py:71-79 | `refresh_token` returns the refreshed token and saves it, leaving the ledger alone |
| Freee.FreeeClient.LoadToken | services/integrations/freee_api.py:57-64 | `load_token` returns the loaded token; the token file changes exactly when a token is issued |
| Freee.FreeeClient.PostJournalEntry | services/integrations/freee_api.py:81-96 | one entry with the id `freee-` plus the next number in five digits, the payload and the time is appended; the response is that id with status `queued`, the token is untouched, and a numbered ledger stays numbered |
| Yayoi.FromDict | services/integrations/yayois_api.py:20-25 | a token read back has a valid issue time |
| Yayoi.RoundTrip | services/integrations/yayois_api.py:17-25 | a written token reads back as the same token |
| Yayoi.YayoiClient.EnsureToken | services/integrations/yayois_api.py:42-48 | `ensure_token` returns the stored token when there is one, and otherwise writes and returns `yayoi-demo-token` issued now; afterwards the token file holds what was returned |
| Yayoi.YayoiClient.PostJournalEntry | services/integrations/yayois_api.py:50-63 | one entry with the id `yayoi-` plus the next number in five digits, the payload and the time is appended; the response is that id with status `accepted`, the token is untouched, and a numbered ledger stays numbered |
| Bank.NumberedUnique | services/integrations/bank_api.py:30 | a ledger numbered from one never repeats a batch id |
| Bank.BankClient.ExecutePayments | services/integrations/bank_api.py:25-39 | `execute_payments` appends one batch holding the payments in order under the id `batch-` plus the next number, and the receipt names that batch, `processed` and the request time; a numbered ledger stays numbered |
| Ledger.SequentialIdParts | services/integrations/freee_api.py:86 | `f"{prefix}{n:05d}"` is the prefix followed by at least five digits that read back as `n` |
| Ledger.SequentialIdInjective | services/integrations/freee_api.py:86 | different entry numbers give different ids |
| Ledger.SequentialIdWidth | services/integrations/freee_api.py:86 | up to 99999 entries the id is the prefix plus exactly five digits |
| Ledger.NumberedUnique | services/integrations/yayois_api.py:54 | a ledger numbered from one never repeats an id |
| Ledger.NumberedAppend | services/integrations/yayois_api.py:54-55 | appending the entry with the next id keeps the ledger numbered |
| Freee.FreeeClient.constructor | services/integrations/freee_api.py:38-42 | the client starts from the token file and the posted journal entries already stored |
| Yayoi.YayoiClient.constructor | services/integrations/yayois_api.py:31-35 | the client starts from the token file and the ledger entries already stored |
| Bank.BankClient.constructor | services/integrations/bank_api.py:15-18 | the client starts from the payment batches already stored |
| Repo.NewRecord | services/api/repo.py:52-63 | a new job record is `queued`, created and updated at the same time, not started or finished, with the single `Job queued` log line |
| Repo.WithStatus | services/api/repo.py:84-95 | a status update keeps the id, title, creation time and logs |
| Repo.WithLog | services/api/repo.py:97-104 | appending a log line keeps the id and the status |
| Repo.StatusRules | services/api/repo.py:89-94 | a status update sets the status and `updated_at`; `started_at` is set on a `running` update only while unset and otherwise kept; `finished_at` is set exactly on `ok` and `failed` and otherwise kept |
| Repo.ApplyStatuses | services/api/repo.py:84-95 | any run of status updates keeps the id and the logs |
| Repo.StartedAtOnce | services/api/repo.py:91-92 | over any run of status updates a set `started_at` is never overwritten, and after any `running` update it is set |
| Repo.LogAppended | services/api/repo.py:102-103 | the new log line `<timestamp> <message>` goes after every earlier line and the record is stamped |
| Repo.FindRecord | services/api/repo.py:46-50 | `_find` yields the first record with the id, or none when no record has it |
| Repo.CreatedLaterOrder | services/api/repo.py:72-74 | ordering by `created_at`, newest first, is a total preorder |
| Repo.SliceBound | services/api/repo.py:75 | a slice bound lands inside the list |
| Repo.ListJobsWindow | services/api/repo.py:70-76 | with non-negative arguments the page has at most `limit` records and is the window starting at `offset` of the newest-first order, empty past the end |
| Repo.ListOrder | services/api/repo.py:72-74 | the newest-first order holds every record exactly once and is sorted |
| Repo.Components | services/api/repo.py:107 | the path components kept are non-empty, not `.`, and come from the name |
| Repo.BaseName | services/api/repo.py:107 | `Path(filename).name` holds no `/` |
| Repo.StoredName | services/api/repo.py:107-108 | the stored name starts with the hex id and `_` and has a non-empty name after it |
| Repo.StoredNameSafe | services/api/repo.py:106-111 | whatever the client sends, the stored name after the id holds no `/`, so the upload stays in the upload directory |
| Repo.StoredNamePlain | services/api/repo.py:107-108 | a plain file name is kept as sent |
| Repo.JobRepo.constructor | services/api/repo.py:16-24 | a repository starts with the jobs it is given |
| Repo.JobRepo.CreateJob | services/api/repo.py:52-68 | `create_job` inserts the new record in front of the stored jobs and returns it |
| Repo.JobRepo.GetDetail | services/api/repo.py:78-82 | `get_detail` returns the first record with the id, or `KeyError` when there is none |
| Repo.JobRepo.Find | services/api/repo.py:46-50 | the scan returns the index of the first record with the id |
| Repo.JobRepo.UpdateStatus | services/api/repo.py:84-95 | `update_status` rewrites exactly the first record with the id; for an unknown id it is `KeyError` and nothing changes |
| Repo.JobRepo.AppendLog | services/api/repo.py:97-104 | `append_log` rewrites exactly the first record with the id; for an unknown id it is `KeyError` and nothing changes |
| Repo.JobRepo.List | services/api/repo.py:70-76 | `list_jobs` returns the page of the newest-first order that Python's slice selects |
| Config.Lookup | services/api/config.py:66-67 | `os.environ.get(key)` is present exactly when the key is set, and is then its value |
| Config.LookupOr | services/api/config.py:53-56 | `os.environ.get(key, default)` is the set value, or the default when unset |
| Config.AsBool | services/api/config.py:11-13 | an unset flag is the default |
| Config.AsBoolWords | services/api/config.py:15-21 | after stripping and lower-casing, `1 true yes on` give true, `0 false no off` give false, and any other word gives the default |
| Config.WordsDisjoint | services/api/config.py:16-19 | no word is both a true word and a false word |
| Config.AsBoolOverrides | services/api/config.py:11-21 | the result differs from the default only for a word of the opposite list |
| Config.StepInto | services/api/config.py:53 | one component of `resolve()`: `.` and empty components change nothing, `..` goes up but never above the root, a name goes down; proper components stay proper |
| Config.Walk | services/api/config.py:53 | reading a path text component by component keeps the resolved components proper |
| Config.Resolve | services/api/config.py:53 | `Path(text).resolve()` from the working directory (or from the root for an absolute text) holds only proper components when the working directory does |
| Config.Join | services/api/config.py:60-62 | `path / name` is the path with one more component, `name`, at the end |
| Config.WalkTrailingSlash | services/api/config.py:53 | a trailing `/` changes nothing in the walk |
| Config.ResolveTrailingSlash | services/api/config.py:53 | `Path("x/").resolve()` is `Path("x").resolve()`, so `DATA_DIR` with a trailing separator derives the same paths |
| Config.ResolveName | services/api/config.py:53 | a relative one-component name resolves to that directory right under the working directory |
| Config.WalkName | services/api/config.py:53 | walking a single proper name appends it |
| Config.GetSettings | services/api/config.py:50-75 | `get_settings` fails exactly when `API_JWT_EXPIRES_MINUTES` (default `60`) is not a plain decimal integer, and otherwise carries that integer |
| Config.EagerResolution | services/api/config.py:65-68 | `CELERY_TASK_ALWAYS_EAGER` decides when it holds a known word; unset, `API_FORCE_EAGER` decides; with neither set the tasks run eagerly |
| Config.SettingsDerived | services/api/config.py:53-62 | the data directory is `DATA_DIR` resolved in the working directory, `data` right under it when unset, and holds only proper components when the working directory does; the OCR directory, journal and job files are joined under it; the result backend defaults to the broker, and the broker to `redis://localhost:6379/0` |
| Config.DefaultSettings | services/api/config.py:50-75 | an empty environment gives the documented defaults: the directory `data` under the working directory and the three paths under it, the local Redis broker for both, eager, `dev-secret`, `HS256`, 60 minutes, auth on, `admin@example.com` / `adminpass` |
| Classify.FirstKeyword | services/accounting/classify.py:47-49 | the scan of the keyword table finds the first entry whose keyword occurs, or reports that none does |
| Classify.InferCategory | services/accounting/classify.py:42-50 | a truthy explicit category is returned unchanged; otherwise the result is a category text |
| Classify.InferCategoryByKeyword | services/accounting/classify.py:46-50 | without an explicit category, the first keyword in table order that occurs in the lower-cased text gives its category, and no keyword gives `その他経費` |
| Classify.FirstKeywordAt | services/accounting/classify.py:47-49 | the entry found is the matching one with no match before it |
| Classify.AccountFor | services/accounting/classify.py:65 | the account lookup fails exactly for an unhashable category (a list or a dict) |
| Classify.AccountsCoverKeywords | services/accounting/classify.py:9-35 | every category the keyword table yields has its own account; any other category falls back to `その他経費` |
| Classify.AmountMatch | services/accounting/classify.py:53 | a match of `AMOUNT_REGEX` needs `amount`, in any case, in the text |
| Classify.AmountMatchFound | services/accounting/classify.py:53 | `amount` followed anywhere later by a digit always matches |
| Classify.AmountMatchShape | services/accounting/classify.py:53 | the captured group is a digit, then digits and commas, an optional point and digits |
| Classify.AmountMatchParses | services/accounting/classify.py:69-72 | the captured group without commas is always a non-negative number `float()` accepts |
| Classify.RawAmount | services/accounting/classify.py:67-71 | an `amount` field that is not `None` is taken as it is |
| Classify.AmountOf | services/accounting/classify.py:72 | a falsy amount is 0.0; a truthy one converts exactly when its text without commas is a float literal |
| Classify.AmountOfInt | services/accounting/classify.py:72 | an `int` amount is taken at its value |
| Classify.ParseFloatOfInt | services/accounting/classify.py:72 | `float(str(i))` is `i` |
| Classify.AmountOfBool | services/accounting/classify.py:72 | an amount of `True` raises in `float("True")`, while `False` counts as no amount |
| Classify.ParseFloatWord | services/accounting/classify.py:72 | in the plain decimal grammar, text that starts with a letter is not a number |
| Classify.TaxOf | services/accounting/classify.py:74-77 | an explicit numeric tax is kept; a missing one is ten per cent of a nonzero amount rounded to two places, and zero for a zero amount |
| Classify.ToDict | services/accounting/classify.py:82-90 | the result has exactly the seven keys `vendor category account memo amount_gross amount_net tax` |
| Classify.AssembleOk | services/accounting/classify.py:63-90 | a successful classification is built from a successful account lookup, amount conversion and tax conversion |
| Classify.AssembleDefined | services/accounting/classify.py:63-90 | when the three conversions succeed the classification succeeds |
| Classify.ClassifyMoney | services/accounting/classify.py:67-78 | the gross amount is the converted amount, the tax the converted tax, and the net amount follows from the two |
| Classify.ClassifyText | services/accounting/classify.py:63-86 | vendor, category, account and memo are the ones `classify_document` computes |
| Classify.ClassifyTotal | services/accounting/classify.py:56-90 | a text or missing category, an `int` or missing amount and a numeric or missing tax never make the classification fail |
| Classify.ClassifyDocument | services/accounting/classify.py:56-90 | a classification always names a (truthy) vendor, and its net amount is never negative unless it is the gross amount itself |
| Classify.Assemble | services/accounting/classify.py:63-90 | once the conversions succeed, the vendor falls back to a non-empty name and the net amount is non-negative or the gross amount |
| Classify.AmountNeverFails | services/accounting/classify.py:67-72 | an `int` amount field, or none, always converts |
| Classify.AmountOfMatch | services/accounting/classify.py:69-72 | the captured group converts to the number it spells |
| Classify.ClassifyAmountField | services/accounting/classify.py:67-72 | an `int` amount field is the gross amount |
| Classify.ClassifyAmountText | services/accounting/classify.py:68-72 | without an amount field the gross amount is the captured group without commas, or zero when nothing matches |
| Classify.ClassifyTax | services/accounting/classify.py:74-77 | an explicit numeric tax is kept; a missing one is ten per cent of a nonzero gross amount rounded to two places |
| Classify.ClassifyNet | services/accounting/classify.py:78-88 | the net amount is rounded gross minus tax, falling back on the gross amount when negative, and zero for a zero amount |
| Classify.ClassifyCategory | services/accounting/classify.py:64-65 | the category is the inferred one and the account follows it through the account table |
| Classify.ClassifyVendor | services/accounting/classify.py:63-83 | a truthy vendor is kept and an empty one shows as `不明`; the memo names the vendor field, empty or not |
| Classify.MemoPlain | services/accounting/classify.py:80 | for names that neither begin nor end with a space or dash the memo is exactly `<Doctype> - <vendor>` |
| Classify.NetNonNegative | services/accounting/classify.py:78-88 | the net amount is never negative for a non-negative gross amount |
| Classify.NetExact | services/accounting/classify.py:78-88 | for amounts in whole cents the net amount is exactly gross minus tax whenever that is not negative |
| RoutesExport.Ascii | services/api/routes_export.py:31-43 | a bytes literal holds one byte per character, of the same value |
| RoutesExport.Utf8Char | services/api/routes_export.py:30 | one code point encodes to one to four bytes, an ASCII one to itself |
| RoutesExport.Utf8 | services/api/routes_export.py:30 | the UTF-8 payload has between one and four bytes per character |
| RoutesExport.Utf8Ascii | services/api/routes_export.py:30 | ASCII text encodes to the same bytes |
| RoutesExport.Chars | services/api/routes_export.py:36-42 | the bytes read back as the characters of the same numbers |
| RoutesExport.CharsAscii | services/api/routes_export.py:31-43 | ASCII text written as bytes reads back as itself |
| RoutesExport.SkipDigitBytes | services/api/routes_export.py:36 | the digits of `/Length %d` run up to the first non-digit byte |
| RoutesExport.DigitsBefore | services/api/routes_export.py:41 | the digits of `startxref %d` start right after a non-digit byte |
| RoutesExport.AsciiDigits | services/api/routes_export.py:36-42 | a decimal number written into the PDF is a run of digit bytes |
| RoutesExport.ParseNatBytes | services/api/routes_export.py:36-42 | a `%d` written into the PDF is a non-empty run of digit bytes that reads back as the number |
| RoutesExport.StreamRead | services/api/routes_export.py:36-39 | a stream object read at its start gives back the payload whose byte count its length digits spell |
| RoutesExport.StreamRoundTrip | services/api/routes_export.py:36-39 | the stream object, wherever it sits, read at its own start gives the payload back |
| RoutesExport.StartxrefLineEnd | services/api/routes_export.py:41 | the line before the offset ends in a newline |
| RoutesExport.StreamStartByte | services/api/routes_export.py:36 | the text after the length digits starts with `>`, not a digit |
| RoutesExport.SkipDigitsRun | services/api/routes_export.py:36 | a run of digits ended by a non-digit is skipped to that byte |
| RoutesExport.DigitsBeforeRun | services/api/routes_export.py:41 | a run of digits after a non-digit starts there |
| RoutesExport.TailNumber | services/api/routes_export.py:41 | the number just before the closing tail reads back when a non-digit precedes it |
| RoutesExport.TrailerXref | services/api/routes_export.py:40-43 | the trailer's `startxref` reads back as the header's length |
| RoutesExport.RenderPdfLayout | services/api/routes_export.py:25-44 | the fallback PDF holds, right after its header, a stream object whose content is the HTML's UTF-8 bytes with a matching `/Length`, and its `startxref` is the header's length |
| RoutesExport.Generated | services/api/routes_export.py:62 | the `%Y-%m-%d %H:%M` stamp is sixteen characters long |
| RoutesExport.ReadCell | services/api/routes_export.py:53-58 | reading one cell consumes input |
| RoutesExport.ReadCells | services/api/routes_export.py:52-59 | reading cells never grows the input |
| RoutesExport.ReadRow | services/api/routes_export.py:52-59 | reading one row consumes input |
| RoutesExport.ReadNoCell | services/api/routes_export.py:59 | a closing tag is not a cell |
| RoutesExport.ReadAllCells | services/api/routes_export.py:53-58 | the cells of a row read back in order up to its closing tag |
| RoutesExport.ReadCellBefore | services/api/routes_export.py:53-59 | a cell reads back and leaves the rest of the row |
| RoutesExport.ReadOneRow | services/api/routes_export.py:52-59 | one `<tr>` row reads back as its cells |
| RoutesExport.RowsRoundTrip | services/api/routes_export.py:50-61 | when no cell holds a `<`, the table body reads back as the rows it was made of, one `<tr>` per row with its cells in order |
| RoutesExport.Cells | services/api/routes_export.py:52-59 | each row has exactly six cells |
| RoutesExport.ApprovalIndexSpec | services/api/routes_export.py:109 | the approval index holds exactly the jobs that have a record, each with the status of its last record in list order |
| RoutesExport.InvoiceRows | services/api/routes_export.py:110-132 | one payload row per job, in order, each the job's own row |
| RoutesExport.AllCells | services/api/routes_export.py:50-61 | one cell list per payload row, in order |
| RoutesExport.ExportInvoices | services/api/routes_export.py:97-141 | `export_invoices` answers the response `ExportInvoicesOf` describes |
| RoutesExport.BuildPayload | services/api/routes_export.py:110-132 | the loop builds one row per job, in order |
| RoutesExport.ExportInvoicesOf | services/api/routes_export.py:103-141 | it is the 404 `No jobs to export` exactly when no job is stored, and otherwise a PDF attachment named `invoices.pdf` |
| RoutesExport.InvoiceRowsInOrder | services/api/routes_export.py:103-132 | there is one row per stored job, in the listing order, carrying that job's id and status |
| RoutesExport.VendorFallback | services/api/routes_export.py:122-124 | the vendor is the journal entry's, else the OCR result's, else `不明` |
| RoutesExport.AmountFallback | services/api/routes_export.py:113-127 | the amount is `amount`, else `amount_gross`, else empty; an integer is written with comma thousands separators and text as it is |
| RoutesExport.AmountGrouped | services/api/routes_export.py:126 | the comma-grouped integer without its commas is the integer's plain text |
| RoutesExport.ApprovalRule | services/api/routes_export.py:109-129 | a job with an approval record shows the index's status, any other its own `approval_status` |
| RoutesExport.IssueDateRule | services/api/routes_export.py:114-130 | a missing or empty issue date is written as `-`, a present one as it is |
| RoutesExport.JournalFields | services/api/routes_export.py:166-177 | each entry gives one field per CSV column |
| RoutesExport.ExportJournalOf | services/api/routes_export.py:144-183 | `export_journal` is the 404 exactly when there are no journal entries |
| RoutesExport.ExportJournal | services/api/routes_export.py:144-183 | the method answers the response `ExportJournalOf` describes |
| RoutesExport.WriteJournalRows | services/api/routes_export.py:165-177 | the loop writes one CSV row per entry, in entry order |
| RoutesExport.JournalBodyAppend | services/api/routes_export.py:166-177 | appending an entry appends its row |
| RoutesExport.JournalBodyStep | services/api/routes_export.py:166-177 | each loop step appends the row of the next entry |
| RoutesExport.JournalAmount | services/api/routes_export.py:173 | the amount column is `amount` when that is truthy, else `amount_gross`, and empty when neither is present |
| RoutesExport.JournalFieldsRead | services/api/routes_export.py:166-177 | every CSV field, unescaped, reads back as the entry's value |
| Worker.Plus | services/ocr/worker.py:86 | `subtotal_amount + tax_amount` of two numbers is a number, their sum |
| Worker.StructuredUpdates | services/ocr/worker.py:38-41 | a falsy `structured` field writes nothing; a truthy one works exactly when it is a dict, and the updates never hold `amounts` |
| Worker.Converted | services/ocr/worker.py:48-51 | a `None` hint leaves the fields alone; otherwise the field is set to `float(v)`, and the step fails exactly when the plain-decimal `float()` does, with its error |
| Worker.HintedFieldsDefined | services/ocr/worker.py:48-51 | the fields take the hint exactly when every non-`None` amount converts under the plain-decimal `float()` |
| Worker.HintedFieldsValues | services/ocr/worker.py:48-51 | a hinted total becomes the field `amount`, a hinted tax the field `tax`; every other field is kept |
| Worker.PreparedMetadata | services/ocr/worker.py:36-59 | `amounts` is written, as the whole hint, exactly when the hint holds some amount; `set_metadata` runs exactly when the structured field is truthy or the hint holds an amount |
| Worker.KeysDistinct | services/ocr/worker.py:69-88 | the five classification keys written are distinct |
| Worker.TotalAppliedAmount | services/ocr/worker.py:67-70 | a hinted total is written to `amount` and `amount_gross` |
| Worker.TotalAppliedTax | services/ocr/worker.py:71-76 | with a hinted total and tax the tax is written and both net keys are total minus tax |
| Worker.TotalAppliedConverts | services/ocr/worker.py:67-72 | the total step succeeds only when the hinted amounts convert |
| Worker.TotalAppliedBoth | services/ocr/worker.py:67-76 | the total step with a total and a tax writes exactly the five keys |
| Worker.NetFilledKeeps | services/ocr/worker.py:77-80 | the subtotal step writes only the two net keys |
| Worker.NetFilledNoop | services/ocr/worker.py:77 | a present `amount_net` stops the subtotal step |
| Worker.GrossFilledNoop | services/ocr/worker.py:81-85 | a present `amount_gross` stops the gross step |
| Worker.GrossFilledKeeps | services/ocr/worker.py:81-88 | the gross step writes only `amount_gross` and `amount` |
| Worker.TotalOverrides | services/ocr/worker.py:67-88 | after the three steps a hinted total is the classification's `amount` and `amount_gross` |
| Worker.TotalAndTaxNet | services/ocr/worker.py:67-88 | with a hinted total and tax the reconciliation succeeds, the tax is the hint's and both net keys are total minus tax |
| Worker.SubtotalFillsNet | services/ocr/worker.py:77-80 | without a total-and-tax pair, a hinted subtotal fills both net keys when `amount_net` is missing or `None`, and a present `amount_net` is kept |
| Worker.SubtotalAndTaxFillGross | services/ocr/worker.py:81-88 | without a hinted total, subtotal plus tax fills `amount_gross` and `amount` when `amount_gross` is missing or `None`, and a present one is kept |
| Worker.SubtotalIgnoredAfterClassify | services/ocr/worker.py:61-88 | because `classify_document` always sets `amount_net` and `amount_gross`, the subtotal steps never fire |
| Worker.ReconcileSucceeds | services/ocr/worker.py:48-88 | once the fields took the hint, the reconciliation cannot fail |
| Worker.ApprovalReused | services/ocr/worker.py:106-109 | a job with an approval record keeps it and the store is unchanged; a job without one gets a new record at the end whose only event is `pending` by `system` now |
| Worker.FinishedJob | services/ocr/worker.py:99-122 | a finished job awaits approval with no error, holds the journal entry and the approval's status |
| Worker.FinishedMetadata | services/ocr/worker.py:59-122 | a finished job's metadata has the approval over the early metadata over what the job had |
| Worker.MergedTwice | services/ocr/worker.py:59-122 | two metadata merges keep the later value of each key |
| Worker.FailedJob | services/ocr/worker.py:134-141 | a failed job carries the error's text and keeps its result fields and approval |
| Worker.FoundAgain | services/api/jobs.py:104-114 | the first job with an id is found at the same slot after that slot is rewritten |
| Worker.Rewritten | services/api/jobs.py:104-114 | one update of the job's slot stores the mutated job stamped with the time |
| Worker.AppendedFound | services/api/approvals.py:105-118 | the record created for a job without one is found at the end |
| Worker.ApprovalWritable | services/ocr/worker.py:106-114 | the approval the worker reports can be written to the job |
| Worker.ProcessDocument | services/ocr/worker.py:25-141 | an unknown job fails with `KeyError` and nothing is written; otherwise the job goes `running`, then `pending_approval` on success or `failed` on any error; a failure before the first write marks only the job; on success the entry is appended to the journal, the approval is taken or created and the job finished, and the response holds the fields, classification, entry and approval |
| Worker.Run | services/ocr/worker.py:32-141 | from the running job, the stores end as the worker describes for the OCR and hint outcome |
| Worker.ClassifyAndPost | services/ocr/worker.py:61-141 | a classification failure marks the job failed and leaves the other stores; otherwise the posting concludes the worker |
| Worker.PostAndStore | services/ocr/worker.py:92-141 | a posting failure marks the job failed; otherwise the results are stored |
| Worker.Succeed | services/ocr/worker.py:99-133 | the result, the approval, `pending_approval` and the approval metadata are stored in the job's slot and the response is built |
| Worker.SucceedAsWritten | services/ocr/worker.py:99-141 | as written: the result is stored and the approval record taken or created, then the missing `set_approval` raises `AttributeError`; the job ends `failed` with that error's text, the approval store keeps the new record, and the error is raised again |
| Worker.StoredThenFailedDiffers | services/ocr/worker.py:99-141 | as written, a job whose classification and posting succeed ends `failed` with the `set_approval` error, holding the journal entry but not the approval, which differs from the intended finished job |
| Worker.MarkFailed | services/ocr/worker.py:134-141 | the job's slot becomes `failed` with the error's text, and the error is raised again |
| Worker.ReuseOrRecord | services/ocr/worker.py:106-109 | the job's approval record, or a new `pending` one by `system` appended to the store |
| OcrText.FirstAnswered | services/ocr/main.py:151-154 | the extractors are tried in order and the first non-empty answer stops the loop |
| OcrText.ExtractText | services/ocr/main.py:149-155 | `extract_text` succeeds exactly when some extractor answers with non-empty text, and returns the first such answer; otherwise it raises `OCR extraction failed for <path>` |
| OcrText.PerformOcr | services/ocr/main.py:224-228 | `perform_ocr` succeeds exactly when extraction does, keeping the text and the five field keys |
| OcrText.ToFloatText | services/ocr/main.py:158-160 | `None` stays `None` |
| OcrText.ToFloatGrouped | services/ocr/main.py:161-163 | thousands separators are ignored: a comma-grouped number reads as its value |
| OcrText.ToFloatRejects | services/ocr/main.py:162-165 | text `float()` rejects (empty, a lone point, two points) gives `None` instead of raising |
| OcrText.StripNoDigits | services/ocr/main.py:161-165 | empty text or a lone point is not a number |
| OcrText.TwoPoints | services/ocr/main.py:161-165 | `1.2.3` is not a number |
| OcrText.PlainText | services/ocr/main.py:161 | text of digits and points has nothing to strip and no sign |
| OcrText.NonBlank | services/ocr/main.py:186 | the searched lines are stripped and non-empty, and never more than the text's lines |
| OcrText.NonBlankKeeps | services/ocr/main.py:186 | every line with something on it is searched, stripped |
| OcrText.LastNonNewline | services/ocr/main.py:189 | `.+` stops at the last character that is not a newline |
| OcrText.TextGroup | services/ocr/main.py:189 | the group of `\s*(.+)` is non-empty and holds no newline |
| OcrText.NumberGroup | services/ocr/main.py:196 | the group of `\s*([\d,\.]+)` is non-empty and made of digits, commas and points |
| OcrText.LastOccurrence | services/ocr/main.py:189 | the greedy `[^\d]+株式会社` ends at the last `株式会社` in range |
| OcrText.SearchLeftmost | services/ocr/main.py:176 | `regex.search` finds the leftmost position with a match |
| OcrText.SearchFinds | services/ocr/main.py:176 | a match at any position is found |
| OcrText.MatchInFirst | services/ocr/main.py:175-177 | the first line with a match supplies the group |
| OcrText.MatchInNone | services/ocr/main.py:175-177 | a pattern finds nothing exactly when it matches no line |
| OcrText.MatchLineFirst | services/ocr/main.py:172-182 | `_match_line` returns the stripped group of the first pattern that matches some line, on the first such line |
| OcrText.MatchLineNone | services/ocr/main.py:172-182 | `_match_line` returns `None` exactly when no pattern matches any line |
| OcrText.MatchLine | services/ocr/main.py:172-182 | with the regular-expression search, `_match_line` finds nothing exactly when no pattern matches any line |
| OcrText.DateAtShaped | services/ocr/main.py:168 | a date matched at a position has four year digits, a separator, one or two month digits, a separator and one or two day digits |
| OcrText.FirstDateShaped | services/ocr/main.py:193-194 | the leftmost date found has that shape |
| OcrText.FoundDateShaped | services/ocr/main.py:193-194 | any date `extract_fields` reports has that shape |
| OcrText.FieldsOf | services/ocr/main.py:215-221 | the result has exactly the five keys, vendor and category text or `None`, amount and tax a float or `None` |
| OcrText.ExtractFields | services/ocr/main.py:185-221 | every key is present, `None` where nothing was found; the date is shaped like a date; the amount is the labelled number, else the first number of the text; the tax is the labelled tax |
| OcrText.AmountFallback | services/ocr/main.py:196-202 | without a labelled amount, any digit in the text gives a non-negative float amount |
| OcrText.AmountLabelled | services/ocr/main.py:196-202 | a labelled amount is used even when another number comes earlier |
| OcrText.TaxMissing | services/ocr/main.py:204-208 | no tax line means a `None` tax |
| OcrText.TotalExampleLines | services/ocr/main.py:186 | `Total: 1000` is one searched line |
| OcrText.TotalExampleMatch | services/ocr/main.py:196 | the amount pattern reads `1000` from `Total: 1000` |
| OcrText.TotalExampleAmount | services/ocr/main.py:185-221 | `extract_fields("Total: 1000")` reads the amount 1000 |
| OcrText.TotalExampleLabelled | services/ocr/main.py:172-182 | `_match_line` reads `1000` from that line |
| OcrText.ThousandReads | services/ocr/main.py:158-165 | `_to_float("1000")` is 1000 |
| Amounts.ReplaceKeepsOut | services/api/ocr/amounts.py:62-63 | a replacement introduces no character that neither the text nor the replacement holds |
| Amounts.Normalize | services/api/ocr/amounts.py:53-64 | after `_normalize` no full-width comma, full stop or yen sign is left |
| Amounts.Box | services/api/ocr/amounts.py:71 | a span without a box gets the four zero corners, so the box is never empty |
| Amounts.MinOf | services/api/ocr/amounts.py:74-77 | `min` is an element no greater than any other |
| Amounts.MaxOf | services/api/ocr/amounts.py:74-75 | `max` is an element no smaller than any other |
| Amounts.Xs | services/api/ocr/amounts.py:72 | one x coordinate per corner, in order |
| Amounts.Ys | services/api/ocr/amounts.py:73 | one y coordinate per corner, in order |
| Amounts.FrameOf | services/api/ocr/amounts.py:71-77 | the width and height of a span's box are never negative |
| Amounts.Parts | services/api/ocr/amounts.py:70 | `span.text.splitlines() or [span.text]` has at least one part |
| Amounts.Indices | services/api/ocr/amounts.py:78 | `enumerate` visits the part indices in order |
| Amounts.Tokenize | services/api/ocr/amounts.py:67-95 | the loop over the spans yields the tokens of every span, in span order |
| Amounts.TokenizeSpan | services/api/ocr/amounts.py:78-94 | the inner loop yields one token per non-blank part, in order |
| Amounts.PartTokenShape | services/api/ocr/amounts.py:79-94 | a token holds its stripped, non-empty part, the span, the normalised text and a size that is not negative |
| Amounts.QuotientNonneg | services/api/ocr/amounts.py:91 | a token's height share is not negative |
| Amounts.SpanTokensShape | services/api/ocr/amounts.py:78-94 | every token of a span comes from one of its parts |
| Amounts.SpanTokensComplete | services/api/ocr/amounts.py:78-94 | every non-blank part of a span makes a token |
| Amounts.TokensSound | services/api/ocr/amounts.py:67-95 | every token is a stripped non-blank line of one of the spans, with its normalised text and a box of non-negative size |
| Amounts.TokensComplete | services/api/ocr/amounts.py:67-95 | every non-blank line of every span makes a token |
| Amounts.GroupsEnd | services/api/ocr/amounts.py:17 | `(?:,\d{3})+` covers only digits and commas |
| Amounts.IntegerEnd | services/api/ocr/amounts.py:17 | the integer group covers at least one character, digits and commas only |
| Amounts.FractionEnd | services/api/ocr/amounts.py:17 | the fraction is absent or a point followed by one or two digits |
| Amounts.MatchAt | services/api/ocr/amounts.py:17 | the match starting at a digit not preceded by a digit is well formed |
| Amounts.MatchesValid | services/api/ocr/amounts.py:123 | every match `finditer` yields is a well-formed match of the pattern |
| Amounts.FirstMatchAfter | services/api/ocr/amounts.py:123 | the matches start at or after the scan position |
| Amounts.MatchesOrdered | services/api/ocr/amounts.py:123 | the matches do not overlap and come in text order |
| Amounts.MatchesEmpty | services/api/ocr/amounts.py:17-123 | `finditer` finds nothing exactly when no position can start a number |
| Amounts.FirstDigitStarts | services/api/ocr/amounts.py:17 | the first digit of a run of digits starts a number |
| Amounts.MatchesIffDigit | services/api/ocr/amounts.py:123 | a token yields a number exactly when it holds a digit |
| Amounts.DigitsOnly | services/api/ocr/amounts.py:100 | digits and commas without the commas are digits |
| Amounts.IntegerDigits | services/api/ocr/amounts.py:99-100 | the integer group without its commas is all digits |
| Amounts.MatchReal | services/api/ocr/amounts.py:98-104 | no sign is matched, so the matched number is at least 0 |
| Amounts.ParseNumberRounds | services/api/ocr/amounts.py:98-104 | `_parse_number` is the matched number rounded to the nearest integer, a tie going to the even one, and exact without a fraction |
| Amounts.RoundToIntTie | services/api/ocr/amounts.py:103 | `round` of a non-negative number is not negative and sends ties to the even integer |
| Amounts.Hits | services/api/ocr/amounts.py:109-111 | the keyword count is at most the number of keywords |
| Amounts.HitsZero | services/api/ocr/amounts.py:109-111 | no hit exactly when the text contains none of the keywords |
| Amounts.CloserTotal | services/api/ocr/amounts.py:112 | ordering by distance to the token is a total preorder |
| Amounts.Take | services/api/ocr/amounts.py:113 | `[:5]` keeps a prefix of at most five, exactly five when there are that many |
| Amounts.RankBonus | services/api/ocr/amounts.py:114-117 | a neighbour adds a positive bonus exactly when it contains a keyword |
| Amounts.NeighbourScore | services/api/ocr/amounts.py:113-117 | the neighbours' part of the score is not negative |
| Amounts.NeighbourScorePositive | services/api/ocr/amounts.py:113-117 | the neighbours add something exactly when one of them holds a keyword |
| Amounts.KeywordScoreSign | services/api/ocr/amounts.py:107-118 | the keyword score is never negative, and positive exactly when the token or one of its five nearest neighbours contains a keyword |
| Amounts.NearestAreNearest | services/api/ocr/amounts.py:112-113 | the ranked neighbours are neighbours, at most five, and none left out is nearer than one kept |
| Amounts.FindKeywordScore | services/api/ocr/amounts.py:107-118 | the loops compute the keyword score |
| Amounts.OwnScore | services/api/ocr/amounts.py:109-111 | the first loop adds 1.5 per keyword in the token |
| Amounts.NeighbourLoop | services/api/ocr/amounts.py:113-117 | the second loop adds each ranked neighbour's bonus |
| Amounts.HasKeyword | services/api/ocr/amounts.py:114-117 | the inner loop breaks exactly when the neighbour holds a keyword |
| Amounts.TokenCandidates | services/api/ocr/amounts.py:121-144 | one candidate per number in the normalised text |
| Amounts.TokenCandidatesSpec | services/api/ocr/amounts.py:121-144 | a token has candidates exactly when it has a digit; each carries the token and category, a value of at least 0, `has_keyword` exactly when the keyword score is positive, and the score 4.0 plus that score, else 1.0 |
| Amounts.CandidateFromToken | services/api/ocr/amounts.py:121-144 | the loop over the matches computes the token's candidates |
| Amounts.TokenCandidateAt | services/api/ocr/amounts.py:123-143 | the `k`-th candidate of a token comes from its `k`-th number |
| Amounts.RawNext | services/api/ocr/amounts.py:151-155 | one more token's candidates extend the collected candidates |
| Amounts.RawFromTokens | services/api/ocr/amounts.py:151-155 | every collected candidate comes from one of the tokens, with that category and a value of at least 0 |
| Amounts.CandidateOfToken | services/api/ocr/amounts.py:121-144 | a candidate of a token carries that token and category, with a value of at least 0 |
| Amounts.MaxValue | services/api/ocr/amounts.py:160 | the largest value is one of the values and no value exceeds it |
| Amounts.Adjusted | services/api/ocr/amounts.py:161-165 | the bonuses keep the number of candidates |
| Amounts.ByScoreTotal | services/api/ocr/amounts.py:166 | ordering by score, highest first, is a total preorder |
| Amounts.AdjustedSpec | services/api/ocr/amounts.py:157-165 | the bonuses keep each candidate's value, token and category, give +2.0 exactly to those of the largest value and +1.0 exactly to those right of 0.6 |
| Amounts.Postprocessed | services/api/ocr/amounts.py:157-166 | `postprocess` keeps the number of candidates and returns exactly the adjusted candidates |
| Amounts.PostprocessSorted | services/api/ocr/amounts.py:157-166 | `postprocess` returns all the adjusted candidates, ordered by score, highest first |
| Amounts.Postprocess | services/api/ocr/amounts.py:157-166 | the loop that adds the bonuses, then the sort, computes `postprocess` |
| Amounts.ScoreCandidates | services/api/ocr/amounts.py:147-172 | the loop over the tokens computes the three postprocessed candidate lists |
| Amounts.SelectBest | services/api/ocr/amounts.py:175-176 | `_select_best` is the first candidate, or `None` exactly for no candidates |
| Amounts.SelectedIsBest | services/api/ocr/amounts.py:157-176 | the candidate selected from postprocessed candidates has the largest score among them |
| Amounts.SelectedIsFirstBest | services/api/ocr/amounts.py:157-176 | the selected candidate is the first one, in the order the bonuses were given, among those with the largest adjusted score |
| Amounts.ConsistencyCheck | services/api/ocr/amounts.py:179-182 | a missing amount is consistent; otherwise subtotal plus tax must be within 1 of the total |
| Amounts.PayloadList | services/api/ocr/amounts.py:214-217 | the payload of a category is that of its first five candidates, in order |
| Amounts.Matched | services/api/ocr/amounts.py:233-235 | the matched keywords are exactly the keywords the token contains |
| Amounts.ExtractAmounts | services/api/ocr/amounts.py:185-251 | `extract_amounts` computes the result `AmountsOf` describes |
| Amounts.BuildPayload | services/api/ocr/amounts.py:212-217 | the payload loops list the first five of each category in the order total, subtotal, tax |
| Amounts.PayloadLoop | services/api/ocr/amounts.py:214-217 | the inner loop lists one payload per kept candidate, with its kind |
| Amounts.ImpliedTotal | services/api/ocr/amounts.py:193-201 | with no total candidate but a subtotal and a tax, the total is their sum and is never penalised |
| Amounts.NoTotal | services/api/ocr/amounts.py:189-201 | without a total candidate and without both a subtotal and a tax there is no total |
| Amounts.RawSameLength | services/api/ocr/amounts.py:151-155 | every keyword category gets one candidate per numeric token, so the three raw lists have the same length |
| Amounts.ScoredListsAligned | services/api/ocr/amounts.py:151-201 | the scored total, subtotal and tax lists have the same length, so without a total candidate there is no subtotal, no tax and no total at all |
| Amounts.AmountsOf | services/api/ocr/amounts.py:185-251 | `extract_amounts` never reports a subtotal or a tax without a total, and lists at most five candidates of each kind |
| Amounts.PenaltyRule | services/api/ocr/amounts.py:203-210 | the total keeps its value; it loses 2.0 of its score exactly when subtotal and tax are both present and their sum is more than 1 away from it |
| Amounts.ResultShape | services/api/ocr/amounts.py:212-231 | currency `JPY`, no vendor or invoice date, the token count, and the candidates at most five totals, then subtotals, then taxes |
| Amounts.TotalScoreRule | services/api/ocr/amounts.py:223-229 | the total and its score are the final total's, and the score is 0.0 without a total |
| Amounts.KeywordRegions | services/api/ocr/amounts.py:232-250 | the keyword regions are exactly the tokens whose normalised text contains a keyword, each with every keyword it contains |
| Details.Ys | services/api/ocr/details.py:52 | one y coordinate per corner, in order |
| Details.SpanLeTotal | services/api/ocr/details.py:59-61 | ordering spans by line key, then by first x, is a total preorder |
| Details.Place | services/api/ocr/details.py:63-71 | placing a span keeps every bucket non-empty |
| Details.Bucketed | services/api/ocr/details.py:62-71 | the buckets are non-empty, and there are none exactly when there are no spans |
| Details.FlattenAppend | services/api/ocr/details.py:62-71 | flattening distributes over appending a bucket |
| Details.BucketedFlatten | services/api/ocr/details.py:62-71 | the buckets, read in order, are the sorted spans: none lost, none added, none reordered |
| Details.PlaceFlatten | services/api/ocr/details.py:64-71 | one pass of the bucketing loop adds the span at the end of the buckets read in order |
| Details.PlaceGaps | services/api/ocr/details.py:67-71 | placing a span keeps neighbours inside a bucket within 14 px and consecutive buckets more than 14 px apart |
| Details.BucketedGaps | services/api/ocr/details.py:62-71 | inside a bucket consecutive spans are within 14 px, and each bucket starts more than 14 px from the last span of the previous one |
| Details.TokensOf | services/api/ocr/details.py:75 | a line's tokens are exactly the non-empty stripped texts of its spans |
| Details.Keys | services/api/ocr/details.py:78 | one line key per span, in order |
| Details.GroupedLinesSpec | services/api/ocr/details.py:58-71 | the buckets hold every span exactly once, sorted, with the 14 px rule inside and between buckets |
| Details.GroupedLines | services/api/ocr/details.py:58-80 | no spans give no lines, and every line has a token |
| Details.LinesHaveTokens | services/api/ocr/details.py:73-80 | every line kept from the buckets has a token |
| Details.LinesAreBuckets | services/api/ocr/details.py:58-80 | every line is the mean key and tokens of a bucket with some text, and every such bucket gives a line |
| Details.BucketLines | services/api/ocr/details.py:73-80 | the line loop keeps exactly the buckets with text |
| Details.GroupLines | services/api/ocr/details.py:58-80 | `_group_lines` computes the lines `GroupedLines` describes |
| Details.BucketSpans | services/api/ocr/details.py:62-71 | the bucket loop computes the buckets |
| Details.SkipGap | services/api/ocr/details.py:29 | the optional separator and spaces are skipped forward |
| Details.YearRange | services/api/ocr/details.py:29 | a year matched by `20\d{2}|19\d{2}` lies in 1900-2099 |
| Details.TwoDigits | services/api/ocr/details.py:29 | one or two digits are below 100 |
| Details.MonthDayRange | services/api/ocr/details.py:29 | month and day are below 100 |
| Details.FirstDateRange | services/api/ocr/details.py:84-89 | the date found has a year in 1900-2099 and month and day below 100 |
| Details.NormalizeDate | services/api/ocr/details.py:83-93 | `_normalize_date` finds a date exactly when the date pattern matches, and it is `YYYY-MM-DD` with a 19xx or 20xx year and the matched year, month and day |
| Details.DashedParts | services/api/ocr/details.py:91 | the dashed date holds its three parts at fixed places |
| Details.NoYearNoDate | services/api/ocr/details.py:84-86 | text with no year gives no date |
| Details.SlashDate | services/api/ocr/details.py:83-93 | `2024/04/01` normalises to `2024-04-01` |
| Details.SlashText | services/api/ocr/details.py:91 | the padded parts join to `2024-04-01` |
| Details.SlashDateFound | services/api/ocr/details.py:84-89 | the date found in `2024/04/01` is (2024, 4, 1) |
| Details.SlashYear | services/api/ocr/details.py:29 | the year of `2024/04/01` is 2024 and its separator is skipped |
| Details.SlashMonthDay | services/api/ocr/details.py:29 | month and day of `2024/04/01` are 4 and 1 |
| Details.Digits2024 | services/api/ocr/details.py:87 | `int("2024")` is 2024 |
| Details.SmallDigits | services/api/ocr/details.py:88-89 | `int("04")` and `int("01")` are 4 and 1 |
| Details.Pads | services/api/ocr/details.py:91 | the zero-padded widths give `2024`, `04` and `01` |
| Details.NumberSearchIffDigit | services/api/ocr/details.py:31 | `NUMBER_PATTERN.search` finds a number exactly when a digit follows |
| Details.ParseAmount | services/api/ocr/details.py:96-106 | blank text after cleaning is no number; the whole cleaned text is taken when `float()` accepts it; otherwise text without a digit has no number |
| Details.ParseAmountGrouped | services/api/ocr/details.py:96-106 | a comma-grouped number parses as its value |
| Details.CleanedGrouped | services/api/ocr/details.py:99-102 | cleaning a comma-grouped number leaves its digits |
| Details.UnsymboledGrouped | services/api/ocr/details.py:99-102 | removing the commas and currency signs from a grouped number leaves its digits |
| Details.NoSymbols | services/api/ocr/details.py:99-102 | digits hold no currency sign or minus sign to replace |
| Details.FirstWhere | services/api/ocr/details.py:182-185 | the scan stops at the first element that satisfies the test |
| Details.FindLine | services/api/ocr/details.py:117-123 | `_find_line` finds the first line that contains one of the labels, or none |
| Details.LastParsed | services/api/ocr/details.py:129-133 | the reversed scan finds nothing exactly when no token parses |
| Details.LastParsedIsLast | services/api/ocr/details.py:126-133 | `_extract_amount_from_line` gives the last token that parses |
| Details.NumericIndices | services/api/ocr/details.py:137-141 | the numeric indices are token positions |
| Details.SearchFindsDigit | services/api/ocr/details.py:140 | a token is numeric exactly when it holds a digit |
| Details.NumericAreDigitTokens | services/api/ocr/details.py:137-141 | the numeric tokens are exactly the tokens with a digit, in order |
| Details.DetectLineItemSpec | services/api/ocr/details.py:136-166 | a line is an item exactly when it has two numeric tokens; the amount is the last, and quantity and unit price the third- and second-last or, with two, the first and none |
| Details.HeaderCount | services/api/ocr/details.py:197 | the header count is at most the number of headers |
| Details.ExtractStructuredFields | services/api/ocr/details.py:169-225 | `extract_structured_fields` computes the fields `StructuredOf` describes |
| Details.StructuredOf | services/api/ocr/details.py:169-225 | the totals are missing exactly when there are no spans, a vendor is named exactly when some line was grouped, and the issue and due dates found are `YYYY-MM-DD` |
| Details.Search | services/api/ocr/details.py:182-199 | the search loop finds the first line that passes the test |
| Details.SearchStops | services/api/ocr/details.py:182-199 | stopping at the first passing element is the first index |
| Details.FindVendor | services/api/ocr/details.py:181-187 | the vendor loop computes the vendor `VendorOf` describes |
| Details.FindDetailLines | services/api/ocr/details.py:195-201 | the header loop computes the detail lines |
| Details.NoSpans | services/api/ocr/details.py:171-178 | no spans give no vendor, no dates, no items and no totals |
| Details.VendorRule | services/api/ocr/details.py:181-187 | the vendor is the first of the top five lines naming a company, else the first line, and none without lines |
| Details.KeptSuffix | services/api/ocr/details.py:201-209 | an item is kept from the detail lines exactly when one of them gives it |
| Details.ItemsStart | services/api/ocr/details.py:195-201 | the detail lines are the lines after the header, or all lines without one |
| Details.ItemsAfterHeader | services/api/ocr/details.py:195-209 | the line items are exactly the items of the lines after the header |
| Details.ItemOfDetected | services/api/ocr/details.py:204-209 | a line gives an item exactly when it is detected as one with an amount |
| Recognize.PaddleAccepts | services/api/ocr/recognize.py:86-104 | an entry is kept exactly when its confidence, `None` counting as 0, is at least 0.5, as a span of its stripped text, that confidence and its points |
| Recognize.TesseractAccepts | services/api/ocr/recognize.py:113-129 | a word is kept exactly when it has text and a confidence of at least 60, as a span of its stripped text, a hundredth of the confidence and the four corners of its box |
| Recognize.Kept | services/api/ocr/recognize.py:86-104 | a filtering loop keeps at most one span per element |
| Recognize.KeptSound | services/api/ocr/recognize.py:86-104 | every kept span comes from some element |
| Recognize.KeptStep | services/api/ocr/recognize.py:86-104 | one more element adds its span, if any, at the end |
| Recognize.KeptComplete | services/api/ocr/recognize.py:86-104 | every element with a span has it kept |
| Recognize.Collect | services/api/ocr/recognize.py:86-104 | the loop collects the kept spans in order |
| Recognize.PaddleConfidence | services/api/ocr/recognize.py:94-96 | every PaddleOCR span has a confidence of at least 0.5 |
| Recognize.TesseractConfidence | services/api/ocr/recognize.py:122-128 | every Tesseract span has a confidence of at least 0.6 and a four-corner box |
| Recognize.RecognizePaddle | services/api/ocr/recognize.py:65-104 | `_recognize_paddle` returns nothing when `OCR_BACKEND` is set and does not name paddle, and otherwise the kept entries in order |
| Recognize.RecognizeTesseract | services/api/ocr/recognize.py:107-129 | `_recognize_tesseract` returns the kept words in order |
| Recognize.TesseractWord | services/api/ocr/recognize.py:122-128 | one word gives its span, or nothing |
| Recognize.Pos | services/api/ocr/recognize.py:138-140 | `next(...)` finds the first merged span with the text, or none |
| Recognize.PosAppend | services/api/ocr/recognize.py:138-144 | appending a span leaves the first position of every earlier text |
| Recognize.PosSameTexts | services/api/ocr/recognize.py:138-142 | raising a confidence does not move any text's first position |
| Recognize.NewText | services/api/ocr/recognize.py:141-144 | a text absent from the merged list is new to the input |
| Recognize.RepeatShape | services/api/ocr/recognize.py:141-142 | a repeated text raises the first span's confidence to the larger one and changes nothing else |
| Recognize.StepFromFirst | services/api/ocr/recognize.py:134-144 | each merge step keeps every output span's text and box those of the first input span with that text |
| Recognize.StepInFirstOrder | services/api/ocr/recognize.py:134-144 | each merge step keeps the output in first-occurrence order |
| Recognize.StepCovers | services/api/ocr/recognize.py:134-144 | each merge step keeps every non-blank input text in the output |
| Recognize.StepDominates | services/api/ocr/recognize.py:134-144 | each merge step keeps every output confidence at least that of every input span with its text |
| Recognize.StepAttained | services/api/ocr/recognize.py:134-144 | each merge step keeps every output confidence one of an input span with its text |
| Recognize.MergedMeetsSpec | services/api/ocr/recognize.py:132-145 | `_merge_spans` drops blank texts, keeps one span per text in first-occurrence order with the first span's box, and gives it the highest confidence of that text |
| Recognize.Merged | services/api/ocr/recognize.py:132-145 | `_merge_spans` returns no more spans than it was given, and none of them blank |
| Recognize.MergedTextsUnique | services/api/ocr/recognize.py:132-145 | the merged texts are non-blank and pairwise different |
| Recognize.MergeSpans | services/api/ocr/recognize.py:132-145 | the loop computes the merge |
| Recognize.Positive | services/api/ocr/recognize.py:153 | only positive confidences are averaged |
| Recognize.ScoreCandidate | services/api/ocr/recognize.py:148-157 | no spans score a fifth of the orientation's `score`; otherwise the score is ten times the mean confidence plus the digit weight |
| Recognize.SumBounds | services/api/ocr/recognize.py:154 | a sum of values within bounds lies within the count times the bounds |
| Recognize.MeanBounds | services/api/ocr/recognize.py:154 | a mean lies within the bounds of its values |
| Recognize.PositiveAll | services/api/ocr/recognize.py:153 | when all confidences are positive, all are averaged |
| Recognize.AvgConfBounds | services/api/ocr/recognize.py:153-156 | with confidences within positive bounds the mean stays within them, and without metadata the score within ten times them |
| Recognize.MeanOfBounded | services/api/ocr/recognize.py:153-156 | the mean of values within bounds stays within them |
| Recognize.AvgConfPositive | services/api/ocr/recognize.py:153-154 | the mean confidence is always positive, 0.2 when none is positive |
| Recognize.SumPositive | services/api/ocr/recognize.py:154 | a sum of positive values is positive |
| Recognize.CandidatesFor | services/api/ocr/recognize.py:169-191 | one candidate per orientation, in order |
| Recognize.BestIndex | services/api/ocr/recognize.py:196 | `max` picks the first candidate with the highest score |
| Recognize.RecognizeOrientation | services/api/ocr/recognize.py:171-190 | one orientation's candidate is the merged and scored spans of PaddleOCR, then Tesseract block mode or, when that finds nothing, line mode |
| Recognize.RecognizeText | services/api/ocr/recognize.py:160-197 | no orientations raise `OCR recognition failed`; otherwise the best candidate is returned |
| Recognize.RecognizedBest | services/api/ocr/recognize.py:193-197 | the returned candidate scores at least as high as every orientation's and higher than every one before it |
| Normalizer.Currency | src/extractor/normalizer.py:41 | the currency is never empty: blank text falls back on `USD` |
| Normalizer.Amount | src/extractor/normalizer.py:36-39 | the amount converts exactly when its text is a plain decimal literal `float()` accepts; otherwise `amount is not numeric` |
| Normalizer.NormalizeRecordAsWritten | src/extractor/normalizer.py:18-43 | as written, a record with neither `account` nor `acct` is a `KeyError` |
| Normalizer.EmptyAccountBecomesNone | src/extractor/normalizer.py:28-53 | as written, a falsy `account` with no `acct` becomes the account text `None` instead of an error, and a batch of that one record is that one row |
| Normalizer.CurrencyDefault | src/extractor/normalizer.py:41 | without a `currency` key the currency is `USD` |
| Normalizer.UpperUsd | src/extractor/normalizer.py:41 | `"USD".upper()` is `USD` |
| Normalizer.ZeroAmountIsMissing | src/extractor/normalizer.py:32-53 | as written, an amount of 0 with no `amt` is reported as a missing amount, and a batch of that one record fails with that `KeyError` |
| Normalizer.NormalizeRecord | src/extractor/normalizer.py:18-43 | corrected: no account key is a `KeyError`; a row has a non-empty account and a present account and amount |
| Normalizer.NormalizeRecordFields | src/extractor/normalizer.py:28-43 | a row holds the stripped account text, the `float()` of the amount and the currency |
| Normalizer.NormalizeRecordEmptyAccount | src/extractor/normalizer.py:28-53 | corrected: an account that is missing, `None` or blank after stripping is `account identifier is empty`, for the record and for a batch of it |
| Normalizer.NormalizeRecordAmountErrors | src/extractor/normalizer.py:32-39 | corrected: with a usable account, a missing amount is a `KeyError` and a non-numeric one `amount is not numeric` |
| Normalizer.ZeroAmountKept | src/extractor/normalizer.py:32-53 | corrected: an amount of 0 gives a row with amount 0.0, and a batch of that record is that row |
| Normalizer.MissingAmountExample | src/extractor/normalizer.py:32-34 | `normalize_record({"account": "ZZZ"})` raises `KeyError` |
| Normalizer.Accounts | src/extractor/normalizer.py:49-53 | one account per row, in order |
| Normalizer.Find | src/extractor/normalizer.py:52 | the dictionary lookup finds the row with the account, or reports it absent |
| Normalizer.NormalizeAll | src/extractor/normalizer.py:50-51 | each record is normalised by the given record normaliser, in input order; the model runs it with the code as written and with the corrected normaliser |
| Normalizer.BatchNormalize | src/extractor/normalizer.py:46-53 | the loop computes `batch_normalize` for the given record normaliser, as written or corrected |
| Normalizer.CollectErrPrefix | src/extractor/normalizer.py:50-51 | once a record fails the whole batch fails with the same error |
| Normalizer.CollectFails | src/extractor/normalizer.py:50-51 | the batch fails exactly when some record's normalisation does |
| Normalizer.BatchFails | src/extractor/normalizer.py:46-53 | for any record normaliser, as written and corrected alike, `batch_normalize` fails exactly when some record fails to normalise |
| Normalizer.BatchOfOne | src/extractor/normalizer.py:46-53 | a batch of one record is that record's row, or fails with its error |
| Normalizer.PutAccounts | src/extractor/normalizer.py:52 | overwriting a key keeps the key order; a new key goes last |
| Normalizer.RowAccounts | src/extractor/normalizer.py:50-52 | one account per normalised record, in order |
| Normalizer.CollectOrder | src/extractor/normalizer.py:49-53 | the rows come in the order of each account's first appearance |
| Normalizer.FirstSeenDistinct | src/extractor/normalizer.py:53 | first appearances are distinct and cover every account |
| Normalizer.CollectAccounts | src/extractor/normalizer.py:46-53 | at most one row per account, and exactly the accounts of the input |
| Normalizer.PutContains | src/extractor/normalizer.py:52 | the new row is stored and rows of other accounts stay |
| Normalizer.CollectLastWins | src/extractor/normalizer.py:46-53 | for each account the last record wins |
| Numbers.NatToString | services/integrations/freee_api.py:86 | `str(n)`: at least one digit, no leading zero unless `n` is 0, and the digits read back as `n` |
| Numbers.ParseDigitsPadded | services/integrations/freee_api.py:86 | leading zeros do not change the value of a digit string |
| Numbers.PadNat | services/integrations/freee_api.py:86 | `f"{n:05d}"`: digits that read back as `n`, at least `width` of them and no more than `str(n)` needs |
| Numbers.PadNatWidth | services/integrations/bank_api.py:30 | a number below `10^k` padded to `k` digits has exactly `k` characters |
| Numbers.Digits | services/api/ocr/details.py:91 | `f"{n:02d}"`/`f"{n:04d}"` for a number that fits: exactly `w` digits reading back as `n` |
| Numbers.ParseInt | services/api/config.py:71 | `int(s)` succeeds only on text that is not blank after stripping |
| Numbers.ParseIntOfString | services/api/config.py:71 | `int(str(i)) == i` for every integer |
| Numbers.ParseUnsigned | services/ocr/main.py:158-165 | an unsigned decimal literal reads as a non-negative value |
| Numbers.RoundToInt | services/api/ocr/amounts.py:103 | `round()` to an integer is never more than half a unit away |
| Numbers.RoundHalfEvenError | services/accounting/main.py:61-80 | `round(x, d)` is within half a unit in the last place of `x` |
| Numbers.RoundHalfEvenExact | services/accounting/main.py:61-80 | `round(x, d)` of a value with at most `d` fraction digits is the value |
| Numbers.RoundHalfEvenIdempotent | services/accounting/main.py:151-184 | the result of `round(x, d)` has at most `d` fraction digits, so rounding again changes nothing |
| Numbers.RoundHalfEvenMonotone | services/accounting/main.py:151-167 | `round(x, d)` keeps order: a smaller value never rounds above a larger one |
| Numbers.RoundScaledMonotone | services/accounting/main.py:151-167 | the scaled rounding keeps order |
| Numbers.RoundToIntMonotone | services/api/ocr/amounts.py:103 | rounding to an integer keeps order |
| Numbers.DifferenceOnGrid | services/accounting/classify.py:78 | the difference of two amounts with `d` fraction digits has `d` fraction digits |
| Numbers.WholeOnGrid | services/accounting/classify.py:72-78 | a whole number has `d` fraction digits for every `d` |
| Numbers.HasMoreDigits | services/accounting/classify.py:72-78 | a value with `d` fraction digits also has `d + 1` |
| Numbers.FractionDigits | services/api/routes_export.py:126 | the number of fraction digits `repr(float)` writes: at least `from`, at most 17, and enough for the value when below 17 |
| Numbers.UnscaleScale | services/accounting/main.py:61-80 | dividing by `10^d` undoes multiplying by it |
| Numbers.ScaleUnscale | services/accounting/main.py:61-80 | multiplying by `10^d` undoes dividing by it |
| Numbers.GroupThousandsUngroup | services/api/routes_export.py:126 | removing the `,` separators of `f"{n:,}"` gives the digits back |
| Numbers.RemoveCharAppend | services/api/ocr/amounts.py:100 | `replace(",", "")` distributes over concatenation |
| Numbers.FloatReprOfInt | services/ocr/worker.py:49 | `str(float(n))` of a whole number is its digits followed by `.0` |
| Numbers.FixedTextOf | services/api/routes_export.py:126 | the fixed-point text: sign, integer part (grouped when asked), `.`, zero-padded fraction |
| Text.TrimStart | services/ocr/main.py:56 | the characters dropped on the left all satisfy the predicate, the first kept one does not, and what remains is a suffix |
| Text.TrimEnd | services/ocr/main.py:56 | the characters dropped on the right all satisfy the predicate, the last kept one does not, and what remains is a prefix |
| Text.StripSet | services/accounting/classify.py:80 | `s.strip(chars)`: the result neither starts nor ends with one of `chars` |
| Text.Strip | src/extractor/normalizer.py:28 | `s.strip()`: no longer than `s`, and neither starts nor ends with whitespace |
| Text.StripNoop | services/ocr/main.py:186 | text that neither starts nor ends with whitespace is unchanged by `strip()` |
| Text.StripSetNoop | services/accounting/classify.py:80 | text that neither starts nor ends with one of `chars` is unchanged by `strip(chars)` |
| Text.TrimStartNoop | services/ocr/main.py:56 | nothing is dropped when the first character does not satisfy the predicate |
| Text.TrimEndNoop | services/ocr/main.py:56 | nothing is dropped when the last character does not satisfy the predicate |
| Text.StripIdempotent | services/ocr/main.py:186 | stripping twice is stripping once |
| Text.Lower | services/accounting/classify.py:38-39 | `s.lower()` on ASCII letters: same length, each ASCII capital lower-cased and every other character kept |
| Text.Upper | src/extractor/normalizer.py:41 | `s.upper()` on ASCII letters: same length, each ASCII small letter upper-cased and every other character kept |
| Text.Capitalize | services/accounting/classify.py:80 | `s.capitalize()` on ASCII letters: same length, the first character upper-cased and the rest lower-cased |
| Text.LowerIdempotent | services/api/config.py:15 | lower-casing twice is lower-casing once |
| Text.FindFrom | services/accounting/classify.py:53 | the search finds the first occurrence at or after `from`, or reports that there is none |
| Text.ContainsIff | services/accounting/classify.py:42-50 | `sub in s` exactly when `sub` occurs at some position of `s` |
| Text.ReplaceChar | services/api/ocr/amounts.py:100 | `replace(c, rep)` removes every `c` when `rep` has none, and changes nothing when `s` has none |
| Text.RemoveChar | services/api/ocr/amounts.py:100 | `replace(c, "")` leaves no `c`, adds no character and changes nothing when there is none |
| Text.FirstBoundary | services/api/ocr/amounts.py:70 | the first line boundary at or after `i`, with none before it |
| Text.SplitLines | services/api/ocr/amounts.py:70 | `splitlines()`: no line holds a line boundary, and the list is empty exactly when the text is |
| Text.SingleLine | services/api/ocr/amounts.py:70 | non-empty text with no line boundary is one line |
| Text.IndexOfChar | services/api/repo.py:106-111 | the first `c` at or after `i`, with none before it |
| Text.IndexOfCharAt | services/api/repo.py:106-111 | the search for `c` stops at its first occurrence |
| Text.SplitOn | services/api/repo.py:106-111 | `split(c)`: at least one part, and no part holds `c` |
| Text.SplitOnAbsent | services/api/repo.py:106-111 | text without the separator splits into itself |
| Text.MapSeq | services/ocr/main.py:186 | a comprehension: one result per element, in order |
| Text.MapSeqPrefix | services/accounting/main.py:138-149 | mapping a prefix gives a prefix of the mapping |
| Timestamps.DaysInMonth | services/api/jobs.py:26-27 | every month has between 28 and 31 days |
| Timestamps.AtMostTotal | services/api/approvals.py:145 | any two timestamps are ordered one way or the other |
| Timestamps.AtMostTrans | services/api/jobs.py:148 | the order of timestamps is transitive |
| Timestamps.NextDay | services/integrations/freee_api.py:48 | the next calendar day is a valid later date at the same time of day; it overflows only after 9999-12-31 |
| Timestamps.AddHours | services/integrations/freee_api.py:48 | `dt + timedelta(hours=h)` is a valid timestamp, later when `h > 0`, with the hour advanced by `h` modulo 24 and the minutes, seconds and microseconds kept |
| Timestamps.Two | services/api/jobs.py:22-23 | a two-digit field that reads back as its value |
| Timestamps.Four | services/api/jobs.py:22-23 | a four-digit field that reads back as its value |
| Timestamps.Six | services/api/jobs.py:22-23 | a six-digit field that reads back as its value |
| Timestamps.DateTimeText | services/api/approvals.py:20-21 | the date and time of day are 19 characters |
| Timestamps.FormatSecondsZ | services/api/approvals.py:13-21 | `"%Y-%m-%dT%H:%M:%SZ"` writes 20 characters |
| Timestamps.FormatMicrosZ | services/api/jobs.py:15-23 | `"%Y-%m-%dT%H:%M:%S.%fZ"` writes 27 characters |
| Timestamps.IsoFormat | services/integrations/freee_api.py:90 | `isoformat()` writes 19 characters, or 26 with microseconds |
| Timestamps.ReadDateTime | services/api/jobs.py:26-27 | what is read is a valid timestamp with the given microseconds |
| Timestamps.ParseSecondsZ | services/api/approvals.py:38 | a parsed approvals time is valid and has no microseconds |
| Timestamps.ParseMicrosZ | services/api/jobs.py:26-27 | a parsed jobs time is valid |
| Timestamps.FromIsoFormat | services/integrations/freee_api.py:31 | a value parsed from the two fixed-width forms `isoformat()` writes is valid |
| Timestamps.ReadDateTimeText | services/api/jobs.py:22-27 | the written date and time read back as the same fields |
| Timestamps.SecondsZRoundTrip | services/api/approvals.py:20-38 | writing with the approvals format and parsing back loses only the microseconds |
| Timestamps.MicrosZRoundTrip | services/api/jobs.py:22-27 | writing with the jobs format and parsing back gives the same timestamp |
| Timestamps.IsoFormatRoundTrip | services/integrations/freee_api.py:23-31 | `fromisoformat(isoformat(dt)) == dt` |
| Values.Get | src/extractor/normalizer.py:28 | `d.get(k)`: the stored value, or `None` when absent |
| Values.GetOr | src/extractor/normalizer.py:41 | `d.get(k, default)`: the stored value, or the default when absent |
| Values.Or | src/extractor/normalizer.py:28 | `a or b`: `a` when truthy, otherwise `b` |
| Values.FloatOfText | src/extractor/normalizer.py:37 | `float(s)` succeeds exactly when the text is a plain decimal literal (optional sign, digits with an optional point, surrounding whitespace), with its value |
| Values.ToFloat | src/extractor/normalizer.py:37 | `float(v)`: numbers convert to their value, text is parsed, and `None`, lists and dictionaries raise `TypeError` |
| Values.StoreKeeps | services/ocr/worker.py:49-51 | storing under one key leaves every other key's value alone |
| Values.ThreeStores | services/ocr/worker.py:45-51 | three stores under distinct keys can each be read back |
| Values.Merge | services/api/jobs.py:140-144 | `d.update(u)`: the keys of both, the values of `u` where it has them and of `d` elsewhere |
| Values.Item | services/api/approvals.py:38 | `d[key]`: the value when present, `KeyError(key)` when absent |
| Values.TextField | services/api/approvals.py:38 | `data[key]` read as text: `KeyError` when absent, and a result is the stored text |
| Values.OptionalTextField | services/api/approvals.py:36-45 | `data.get(key)` read as optional text: a result is what `get` returns |
| Values.TextFieldOf | services/api/approvals.py:36-45 | text stored under `key` is read back |
| Values.OptionalTextFieldOf | services/api/approvals.py:36-45 | optional text stored under `key` is read back |
| Values.OptionalObjectField | services/api/jobs.py:52-65 | `data.get(key)` read as an optional object: a result is what `get` returns |
| Csv.DoubleQuotes | services/api/jobs.py:174-190 | doubling the quotes never shortens the text |
| Csv.UndoubleDouble | services/api/jobs.py:174-190 | undoubling the doubled quotes gives the text back |
| Csv.Escape | services/api/routes_export.py:152-170 | a field that needs no quoting is written as it is, and one that does is wrapped in quotes |
| Csv.EscapeRoundTrip | services/api/routes_export.py:152-170 | reading a written field gives the field back |
| Csv.EscapeAll | services/api/routes_export.py:152-170 | every field of the row is escaped, in order |
| Csv.RowPlain | services/api/jobs.py:174-190 | a row of fields that need no quoting is the fields joined by `,` and ended with `\r\n` |
| Scan.SkipNonDigits | services/ocr/main.py:167 | the first digit at or after `i`, with none before it |
| Scan.SkipDigitsCommas | services/accounting/classify.py:53 | the end of the run of digits and commas starting at `i` (greedy `[\d,]*`) |
| Scan.SkipDigits | services/accounting/classify.py:53 | the end of the run of digits starting at `i` (greedy `\d*`) |
| Scan.SkipSpaces | services/api/ocr/details.py:28-30 | the end of the run of whitespace starting at `i` (greedy `\s*`) |
| Scan.SkipNumberChars | services/api/ocr/details.py:31 | the end of the run of `[\d,\.]` starting at `i` |
| Scan.OneOrTwoDigits | services/api/ocr/details.py:28-30 | greedy `\d{1,2}`: one or two digits, two whenever the second is a digit |
| Scan.NumberFromFound | services/accounting/classify.py:53 | `\d[\d,]*\.?\d*` matches whenever a digit follows the start |
| Scan.NumberFromShape | services/accounting/classify.py:53 | a match is a run of digits and commas that starts with a digit, followed by nothing or by `.` and digits |
| Scan.ShapeParses | services/accounting/classify.py:72 | such a match with its commas removed is a non-negative value that `float()` accepts |
| Scan.CommasRemoved | services/accounting/classify.py:72 | removing the commas from such a run leaves a non-empty digit string |
| Scan.PlainDecimal | services/accounting/classify.py:72 | `float()` accepts digits followed by nothing or by `.` and digits, with a non-negative value |
| Scan.NumberFromParses | services/accounting/classify.py:53-72 | the number found, with its commas removed, is a non-negative value `float()` accepts |
| Scan.WholeParses | services/api/ocr/details.py:106 | `float()` of a digit string is its value |
| Scan.Unsigned | services/api/ocr/details.py:106 | a digit string has no surrounding space and no sign |
| Scan.UnsignedWhole | services/api/ocr/details.py:106 | a digit string read as an unsigned literal is its value |

## Left out

- OCR engines, PDF and image reading, and image preprocessing (services/api/ocr/preprocess.py) are not modelled. These are PaddleOCR, Tesseract, RapidOCR, OpenCV and PIL. `OcrText` receives what each extractor returned; `Recognize` receives each orientation's raw engine reports.
- `extract_amounts_from_text` and `build_journal_lines` are not defined in any modelled file. The worker receives their results as parameters.
- `JobStore.set_approval` and `Job.approval_status` are not defined in services/api/jobs.py. The model gives `Job` an approval status field that `Jobs.JobStore.SetApproval` sets through `_update`, which is what the routes evidently intend. As written, each use raises `AttributeError`, so the following rows state the intended behaviour only:
- RoutesApprovals.Decide: as written, a decision on a known job is recorded in the approval store and then `_sync_job` raises at routes_approvals.py:50. `RoutesApprovals.DecideAsWritten` models this (see the findings).
- RoutesExport.ExportInvoicesOf: as written, every export with at least one job raises at routes_export.py:129, because the `.get` default `job.approval_status` is evaluated for each job. Only the empty-store 404 is reached.
- RoutesExport.ApprovalRule: as written, the row is never built (routes_export.py:129, as above).
- RoutesIntegrations.SelectApproved: as written, a selection without ids raises at routes_integrations.py:52 as soon as one job is stored. With no job stored it is the 400.
- RoutesIntegrations.ApprovedExact: the same filter, which raises on its first job as written.
- RoutesIntegrations.EnsureApprovedExact: as written, `_ensure_approved` raises at routes_integrations.py:63 for any non-empty list, so every sync and every payment run with a selection fails.
- Worker.Succeed: as written, `job_store.set_approval` at services/ocr/worker.py:110 raises `AttributeError` right after `store_result` and the approval lookup. The `except` branch at worker.py:138-141 then marks the job `failed` and raises again, so `pending_approval` is never reached. `Worker.SucceedAsWritten` models this (see the findings).
- Worker.ProcessDocument: the `pending_approval` outcome is the intended one; as written a run whose classification and posting succeed ends as `Worker.SucceedAsWritten` says.
- Worker.Run: the same; its success branch is the intended one.
- Worker.ClassifyAndPost: the same; its success branch is the intended one.
- Worker.PostAndStore: the same; after `store_result` the code as written fails the job.
- Worker.FinishedJob: the finished job is the intended one; the code as written never produces it.
- Worker.FinishedMetadata: the approval metadata is intended; as written worker.py:110 raises before worker.py:113 writes it.
- Worker.ApprovalWritable: the approval is intended for the job; as written it is never written to the job.
- File and JSON I/O, directory creation and the thread locks are not modelled. Each file is the `seq` field its class reloads and rewrites; concurrency is not modelled.
- `datetime.utcnow()`, `uuid4()`, `os.environ` and `secrets` are parameters of the operations that use them.
- One clock value serves a whole request. `Jobs.JobStore.CreateJob` and the sync and payment loops of `RoutesIntegrations` take one `now`, where the Python code reads the clock once per call.
- Floating point is modelled as exact `real` arithmetic. `round(x, d)` is exact half-to-even rounding, so binary representation errors are not modelled.
- `repr()` of a float is the shortest fixed-point text of the exact value, with at most 17 fraction digits. Exponent notation is not modelled.
- Unicode NFKC normalisation (services/api/ocr/amounts.py:54) is a parameter `nfkc`.
- Python's `int()` and `float()` are modelled on plain ASCII decimals: an optional sign, digits with at most one `.` and at least one digit, and surrounding whitespace. Python also accepts exponents (`1e3`), `inf`, `nan`, `_` between digits and non-ASCII decimal digits. In the model those are the `ValueError`, and the members below inherit this grammar:
- Numbers.ParseInt: `int("1_0")` is 10 in Python and an error here.
- Values.FloatOfText: `float("1e3")`, `float("inf")` and `float("1_000")` convert in Python and are errors here.
- Values.ToFloat: text goes through `Values.FloatOfText`, with the same gap.
- Normalizer.Amount: an amount text such as `"1e3"` is `amount is not numeric` here.
- Classify.AmountOf: an amount text such as `"1e3"` raises here.
- Classify.ParseFloatWord: Python's `float()` accepts `inf`, `nan` and `infinity` in any case, which start with a letter. The lemma holds of the plain decimal grammar only.
- Worker.Converted: a hint text such as `"1e3"` fails here.
- Worker.HintedFieldsDefined: the same gap, for every hint.
- Accounting.PostingOf: a text amount such as `"1e3"` raises here.
- Summary.RowOfFields: the same gap, for the row's amount.
- Config.GetSettings: `API_JWT_EXPIRES_MINUTES=1_0` gives 10 minutes in Python and an error here.
- Details.ParseAmount: `float("1e3")` is 1000.0 in Python. Here the whole text is refused, and the number search then gives 1.0.
- `datetime.fromisoformat` and `datetime.strptime` are modelled on the fixed-width forms the program itself writes. Python also accepts others, which are errors in the model:
- Timestamps.FromIsoFormat: only `YYYY-MM-DDTHH:MM:SS`, alone or followed by `.ffffff`. Python also accepts a date alone (`2024-01-15`), a space instead of `T`, shorter fractions and offsets such as `+09:00`.
- Timestamps.ParseSecondsZ: `strptime` also accepts unpadded fields such as `2024-1-5T…`.
- Timestamps.ParseMicrosZ: the same, and fractions of fewer than six digits.
- Summary.MonthOf: a `recorded_at` of `2024-01-15` gives a month in Python and a `ValueError` here.
- Summary.FirstMonth: the same, for the first entry's `recorded_at`.
- Freee.FromDict: a stored expiry time in one of the other forms is refused here.
- Yayoi.FromDict: a stored issue time in one of the other forms is refused here.
- Summary.Key: Python's dictionary treats `1`, `1.0` and `True` as one key, because they hash and compare equal, so their amounts add up under the first label inserted. The model keeps them as separate keys.
- Config.Resolve: symbolic links are not followed. The model resolves `.`, `..`, repeated and trailing separators against the working directory only.
- Config.GetSettings: `@lru_cache(maxsize=1)` keeps one `Settings` object per process. The model is a function of the environment and the working directory, evaluated at each call.
- Amounts.SelectedIsBest: states the largest score only. The tie rule, the earliest candidate among equal scores, is stated by `Amounts.SelectedIsFirstBest`.
- The implied total of services/api/ocr/amounts.py:193-201 is modelled, but that branch is never taken. `Amounts.ScoredListsAligned` proves that a subtotal or tax candidate exists only when a total candidate does.
- `\d` is modelled on ASCII digits. `\s` and `strip()` use Python's full `str.isspace()` set (`Text.IsSpace`).
- `re.IGNORECASE` is modelled on ASCII letters. Python's Unicode case folding also pairs `k` with U+212A KELVIN SIGN, `s` with `ſ` and `i` with `İ` and `ı`. None of these letters occurs in the labels `Vendor`, `Total`, `Amount`, `Tax`, `Category` or the word `amount`, so `OcrText` and `Classify.AmountMatch` match as Python does.
- Text.Lower: only ASCII capitals are lower-cased. Python's `lower()` maps every cased character, turns U+212A KELVIN SIGN into `k`, and turns `İ` into two characters.
- Text.Upper: only ASCII small letters are upper-cased. Python's `upper()` turns `ſ` into `S` and `ß` into `SS`, so its length can change.
- Text.Capitalize: only ASCII letters change case. Python title-cases the first character and lower-cases the rest, so `ß` at the start becomes `Ss`.
- Classify.InferCategoryByKeyword: a text holding `NETWOR` followed by U+212A KELVIN SIGN lowers to `network` in Python and gives `通信費`. Here it gives `その他経費`. Likewise `TAXİ` lowers to `taxi` plus a combining dot in Python, which contains `taxi`. The same applies to Classify.InferCategory and Classify.ClassifyCategory.
- Normalizer.Currency: a currency text such as `uſd` is `USD` in Python and `UſD` here. The same applies to the currency of Normalizer.NormalizeRecordFields.
- Classify.MemoPlain: a document type that starts with a non-ASCII letter keeps its case here, where Python title-cases it. The same applies to the memo of Classify.ClassifyVendor.
- `Config.AsBoolWords`, `Recognize.RecognizePaddle` and `Jobs.NewId` are exact: no non-ASCII character lowers to a letter of `true`, `yes`, `on`, `false`, `no`, `off` or `paddle`, and `uuid4().hex` is ASCII.
- Regular expressions are hand-coded scanners, one per pattern. There is no general regex engine.
- `str()` of a list or a dictionary is not modelled: `Values.PyStr` gives the empty text for those.
- `Values.TextField`: a value that is not text is refused, where Python would carry it on until some later use fails.
- Approvals.ApprovalStore.Record: event times are kept to whole seconds. That is what the JSON file keeps, and every later `_load` returns that, so in-memory microseconds are not modelled.
- `weasyprint` HTML rendering is not modelled. `RoutesExport` models only the fallback PDF that `_render_pdf` writes when weasyprint is missing.
- HTTP responses are modelled as status codes with a detail text or the response body. FastAPI wiring, `Depends`, authentication, Celery and pydantic validation are not modelled.
- The `threading.Timer` job simulation in services/api/routes.py is concurrency, and is not modelled.
- RoutesApprovals.SyncJob: a `KeyError` from the job store is not propagated, and the contract says nothing about a missing job. The handlers call `_sync_job` only after `get_job` has found the job.
- Worker: the module-level `ApprovalStore(settings.approvals_path)` would fail, because `Settings` has no `approvals_path`. The worker receives its approval store as an object instead (see the first finding).
- Details: the `totals` dictionary is `None` in the model for the `{}` the code returns when there are no spans. `test_details.py` expects the vendor 株式会社テスト商事, but the code joins the two spans at the same height into one line. The model follows the code.
- test_amounts.py checks a text fallback of `extract_amounts` and a `fields` key that the code does not have. Neither is modelled.

## Findings

| source | as written | input that shows it | evidently intended | confidence | as-written member | corrected member |
|---|---|---|---|---|---|---|
| services/accounting/main.py:173-180 | reads `settings.approvals_path`, which `Settings` does not define; the `AttributeError` is swallowed by `except Exception`, so the approval list is always empty | an approval store holding one approved record | the approval rate is the share of approved records in the store, 1.0 here | high; not executed | Summary.ApprovalRateAsWrittenIgnoresStore | Summary.ApprovalRateBounds |
| services/api/routes_approvals.py:49-54 | `_sync_job` calls `job_store.set_approval`, which `JobStore` does not define, after `store.record` has written the decision | approving any stored job | the job's approval status and job status follow the recorded decision, and the response is the record | high; not executed | RoutesApprovals.DecideAsWritten | RoutesApprovals.Decide |
| services/ocr/worker.py:99-114 | `process_document` calls `job_store.set_approval`, which `JobStore` does not define, after `store_result` and the approval lookup; the `except` branch marks the job `failed` and re-raises | any document whose OCR, classification and posting succeed | the job holds the approval, goes to `pending_approval` with the approval metadata, and the response is returned | high; not executed | Worker.SucceedAsWritten | Worker.Succeed |
| src/extractor/normalizer.py:28-30 | `str(record.get("account") or record.get("acct"))` turns a missing or falsy value into the text `None`, so the empty-account check never fires for it | `{"account": "", "amount": 5}` gives a row for account `None`, and so does `batch_normalize` of that one record | `ValueError("account identifier is empty")` | medium; not executed | Normalizer.EmptyAccountBecomesNone | Normalizer.NormalizeRecordEmptyAccount |
| src/extractor/normalizer.py:32-34 | `record.get("amount") or record.get("amt")` treats an amount of 0 as missing | `{"account": "A", "amount": 0}` raises `KeyError("record missing amount/amt field")`, alone or in a batch | a row with amount 0.0 | medium; not executed | Normalizer.ZeroAmountIsMissing | Normalizer.ZeroAmountKept |
