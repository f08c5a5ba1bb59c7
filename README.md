# Serverless data pipeline: a verified model of its two handlers

The pipeline has two AWS Lambda workers. The **data processor** runs when a
CSV file is uploaded to a bucket. It takes the first record of the upload
notification and decodes the object key with `unquote_plus`. It downloads the
object to `/tmp/<basename of the key>`, then writes every CSV row to a
DynamoDB table through a batch writer, each row tagged with a fresh
`record_id`. The **report generator** runs daily. It scans the whole table,
following `LastEvaluatedKey` continuation tokens, and counts the items. It
writes a one-metric CSV summary and uploads it under
`reports/summary-YYYY-MM-DD.csv`. An empty table means no report.

The model is in Dafny:

- `wrappers.dfy`
  - `Wrappers`: the `Option` type.
  - `Lambda`: what both handlers share. That is the row type (column name to string value) and the handler's outcome: a returned `{statusCode, body}` or a raised exception.
- `decimal.dfy` (`Decimal`): decimal digit text, as `str(int)` and the zero-padded `strftime` fields write it.
- `report_generator.dfy` (`ReportGenerator`)
  - **The table store.** It is a sequence of replies to successive scans. Each reply is a page (its optional `Items` and optional `LastEvaluatedKey`) or a failure. `Scan(store, start)` answers `table.scan()` with the first reply. It answers `table.scan(ExclusiveStartKey=k)` with the reply after the page that handed out `k`.
  - **The pagination loop** is the method `ScanAll`, with its loop invariants.
  - **The summary** and its CSV text, with a CSV reader to read it back.
  - **The report key** and a parser for it.
  - **The handler** `GenerateReport`.
- `data_processor.dfy` (`DataProcessor`)
  - first-record selection;
  - `unquote_plus` and a reference `quote_plus`;
  - the basename and the temp path;
  - row tagging;
  - the batch writer as a class with a put log (`BatchWriter.puts`);
  - the row loop `WriteRows`;
  - the handler `ProcessUpload`, specified by the function `Process`.

Calls to the outside world become parameters:

- **Report generator:** the table's replies (`store`), the UTC date (`today`), the configured bucket (`bucket`, absent when `DATA_LAKE_BUCKET_NAME` is unset) and the upload's failure (`uploadError`).
- **Data processor:** the bucket's objects as the CSV reader sees them (`objects`), the successive `uuid.uuid4()` strings (`supply`) and the batch writer (`batch`).

## Model

| member | source | states |
|---|---|---|
| ReportGenerator.Scan | src/report_generator/lambda_function.py:31-36 | no contract of its own: `table.scan()` is the first reply, `table.scan(ExclusiveStartKey=k)` the reply after the page that handed out `k`; specified by TokenLeadsToNext and StartKeysFollowTokens |
| ReportGenerator.ItemsOf | src/report_generator/lambda_function.py:32-37 | no contract of its own: `response.get('Items', [])`; specified by CollectedIsFlatten and CountIsSumOfPageSizes, where a page without `Items` contributes nothing |
| ReportGenerator.FindTokenFinds | src/report_generator/lambda_function.py:36 | the token lookup returns a page that handed out the key, and finds none only when no page before the last handed it out |
| ReportGenerator.TokenLeadsToNext | src/report_generator/lambda_function.py:35-36 | on a well-formed chain of replies, scanning from page `j`'s `LastEvaluatedKey` is answered by reply `j + 1` |
| ReportGenerator.StartKeysAt | src/report_generator/lambda_function.py:31-36 | the first scan has no start key, and scan `i` starts at the `LastEvaluatedKey` of page `i - 1` |
| ReportGenerator.StartKeysFollowTokens | src/report_generator/lambda_function.py:31-36 | every scan the loop issues is answered by the reply at its own position, so the walk visits every page once, in order |
| ReportGenerator.ScanAll | src/report_generator/lambda_function.py:31-37 | the loop issues exactly the scans of the walk (no start key, then each page's token in turn) and stops after the page without a token; it fails exactly when the last scan fails, with that scan's error; otherwise it returns the items of all pages, in page order |
| ReportGenerator.CollectedIsFlatten | src/report_generator/lambda_function.py:32-37 | the items gathered from the first `n` pages by `get('Items', [])` and `extend` are those pages' items concatenated |
| ReportGenerator.CollectedAll | src/report_generator/lambda_function.py:32-37 | once every reply is a page, the gathered items are the concatenation of all pages' items |
| ReportGenerator.FlattenConcat | src/report_generator/lambda_function.py:37 | the items of two runs of pages, one after the other, are the first run's items followed by the second's |
| ReportGenerator.CountIsSumOfPageSizes | src/report_generator/lambda_function.py:48 | `len(items)` is the sum of the page sizes, a page without `Items` counting zero |
| ReportGenerator.SplitPageKeepsItems | src/report_generator/lambda_function.py:31-48 | splitting one page's items over two pages changes neither the gathered items nor their count, so the result does not depend on how the store pages |
| ReportGenerator.Summarize | src/report_generator/lambda_function.py:48-51 | no contract of its own: the one metric `Total Records Processed` with the item count; specified by ReportHasOneDataRow |
| ReportGenerator.SummaryCsv | src/report_generator/lambda_function.py:55-59 | no contract of its own: the header and the rows `DictWriter` writes, nothing for an empty summary; specified by SummaryCsvRoundTrip and SummaryText |
| ReportGenerator.MetricRows | src/report_generator/lambda_function.py:59 | no contract of its own: one `name,value\r\n` row per metric; specified by MetricRowsRoundTrip and OneRow |
| ReportGenerator.ParseRowOf | src/report_generator/lambda_function.py:57-59 | the row `name,value\r\n` of a metric whose name needs no quoting reads back as that metric, leaving the rest of the text |
| ReportGenerator.MetricRowsRoundTrip | src/report_generator/lambda_function.py:59 | the data rows `writerows` writes read back as the same metrics, in the same order |
| ReportGenerator.SummaryCsvRoundTrip | src/report_generator/lambda_function.py:55-59 | the text the CSV writer produces (header `metric,value`, then the rows) reads back as the summary it was written from |
| ReportGenerator.OneRow | src/report_generator/lambda_function.py:59 | a one-metric summary writes the single row `name,value\r\n` |
| ReportGenerator.SummaryText | src/report_generator/lambda_function.py:48-59 | the report text is `metric,value\r\nTotal Records Processed,<count>\r\n`, with the count in decimal |
| ReportGenerator.ReportHasOneDataRow | src/report_generator/lambda_function.py:48-59 | read back, the report holds exactly one metric, `Total Records Processed`, whose value is the number of items |
| ReportGenerator.DateText | src/report_generator/lambda_function.py:62 | no contract of its own: `strftime('%Y-%m-%d')`; specified by ParseDateRoundTrip and ParseDateSound |
| ReportGenerator.ReportKey | src/report_generator/lambda_function.py:62-63 | the key is 30 characters: `reports/summary-`, the ten-character date, `.csv` |
| ReportGenerator.ParseDateRoundTrip | src/report_generator/lambda_function.py:62 | the `%Y-%m-%d` text of a valid date reads back as that date |
| ReportGenerator.ParseDateSound | src/report_generator/lambda_function.py:62 | every text the date reader accepts is the `%Y-%m-%d` text of the valid date it reads |
| ReportGenerator.ReportKeyRoundTrip | src/report_generator/lambda_function.py:62-63 | the run date reads back from the report key |
| ReportGenerator.ParseReportKeySound | src/report_generator/lambda_function.py:62-63 | every key the key reader accepts is the report key of the date it reads |
| ReportGenerator.ReportKeyInjective | src/report_generator/lambda_function.py:62-63 | two runs write the same key exactly when they run on the same date |
| ReportGenerator.GenerateReport | src/report_generator/lambda_function.py:27-76 | a failed scan is raised, with nothing uploaded; an empty table returns 200 with "No data to report." and uploads nothing; otherwise the report text of the item count is uploaded under the day's key and 200 with the success body is returned; a missing bucket or a failed upload is raised, with nothing uploaded; every return has status 200 |
| Decimal.NatToStringRoundTrip | src/report_generator/lambda_function.py:59 | the decimal text the writer gives a count reads back as that count |
| Decimal.NatToStringInjective | src/report_generator/lambda_function.py:59 | different counts get different texts |
| Decimal.PadDigitsRoundTrip | src/report_generator/lambda_function.py:62 | a zero-padded date field reads back as its number |
| Decimal.DigitsValueRoundTrip | src/report_generator/lambda_function.py:62 | every digit string is the zero-padded text, at its own width, of the number it denotes |
| DataProcessor.FirstRecord | src/data_processor/lambda_function.py:27 | `event['Records'][0]`, absent for an empty list (the lookup raises); specified by OnlyFirstRecordMatters |
| DataProcessor.OnlyFirstRecordMatters | src/data_processor/lambda_function.py:27-30 | two events with the same first record, or both with no record, give the same outcome and the same puts; later records are ignored |
| DataProcessor.UnquotePlus | src/data_processor/lambda_function.py:30 | decoding never lengthens the key |
| DataProcessor.UnquotePlusEscape | src/data_processor/lambda_function.py:30 | `%HH`, with hex digits in either case, decodes to the octet `HH` denotes |
| DataProcessor.UnquotePlusIdentity | src/data_processor/lambda_function.py:30 | a key containing neither `%` nor `+` decodes to itself |
| DataProcessor.UnquoteQuoteChar | src/data_processor/lambda_function.py:30 | decoding reads the form encoding of one ASCII character (kept, `+` for a space, or `%HH`) back as that character |
| DataProcessor.UnquotePlusRoundTrip | src/data_processor/lambda_function.py:30 | decoding undoes `quote_plus` on every ASCII key |
| DataProcessor.Basename | src/data_processor/lambda_function.py:35 | `key.split('/')[-1]` is a suffix of the key with no `/` in it; unless it is the whole key, a `/` comes just before it |
| DataProcessor.BasenameOfPlainKey | src/data_processor/lambda_function.py:35 | a key without `/` is used whole |
| DataProcessor.TmpPath | src/data_processor/lambda_function.py:35 | the download path is `/tmp/` followed by a name with no `/` |
| DataProcessor.TmpPathNamesDirectory | src/data_processor/lambda_function.py:35-36 | the download path is `/tmp/`, `/tmp/.` or `/tmp/..`, a directory, exactly when the key's last segment is empty, `.` or `..` |
| DataProcessor.Tag | src/data_processor/lambda_function.py:46 | the tagged row has the row's columns plus `record_id`; `record_id` holds the id, even when the CSV had that column; every other column keeps its value |
| DataProcessor.Tagged | src/data_processor/lambda_function.py:44-51 | one item per row, in row order, row `i` tagged with the `i`-th id |
| DataProcessor.TaggedItems | src/data_processor/lambda_function.py:46-51 | each item is its row with only `record_id` changed; when the ids drawn for the rows of one call are distinct 36-character uuid strings, the ids written are non-empty and pairwise distinct |
| DataProcessor.BatchWriter.constructor | src/data_processor/lambda_function.py:43 | a new batch writer has put nothing |
| DataProcessor.BatchWriter.PutItem | src/data_processor/lambda_function.py:51 | `put_item` appends the item to the put log and changes nothing else |
| DataProcessor.WriteRows | src/data_processor/lambda_function.py:43-51 | the loop appends exactly the tagged rows to the put log, one `put_item` per row, in row order, after what was already there |
| DataProcessor.Process | src/data_processor/lambda_function.py:19-64 | no contract of its own: the handler's outcome and puts as a function of the event, the bucket and the id supply; specified by OnlyFirstRecordMatters, DirectoryKeyRaises and ProcessOutcomes |
| DataProcessor.ProcessUpload | src/data_processor/lambda_function.py:19-64 | the handler's outcome and the puts it appends are those `Process` gives: no first record, a missing object or a download path naming a directory (`/tmp/`, `/tmp/.`, `/tmp/..`) is raised with no puts; otherwise every row read is put, and then a read error is raised, or 200 with "Data processed successfully!" is returned |
| DataProcessor.DirectoryKeyRaises | src/data_processor/lambda_function.py:35-64 | when the first record's decoded key has an empty, `.` or `..` last segment, such as `a/..`, the run is raised before any put, whatever the bucket holds |
| DataProcessor.EscapedParentKeyRaises | src/data_processor/lambda_function.py:30-64 | the escaped key `a%2F..` decodes to `a/..`, so the run is raised with no puts |
| DataProcessor.ProcessOutcomes | src/data_processor/lambda_function.py:55-64 | a returned run returns 200 with the success body, after reading the whole object without error and putting one item per row; any puts are the tagged rows of the object named by the first record's decoded key; once that object is found at a usable path, every row read is put, and then its read error is raised, keeping those puts, or 200 with the success body is returned |

## Left out

- Network I/O is not modelled: the boto3 clients, `Table.scan`, `upload_file`, `download_file` and the DynamoDB calls. The table's replies, the bucket's objects and the upload's success or failure are parameters, and the puts are a log.
- `Scan`: the store is a fixed sequence of replies with distinct tokens. Items written or deleted while the scan runs, the parallel-scan options, and the service's exact error text (the model's message is a stand-in) are not modelled.
- The 25-item chunking, the retry of unprocessed items and the flush on exit, all inside `table.batch_writer()`, belong to boto3. A failing `put_item` is not modelled.
- `csv.DictReader` parsing is not modelled. Quoting, short and long rows and the `restkey` column are the library's business, so the rows are a given sequence of maps. A read failure is the error that stops the reading after the rows before it.
- `csv.DictWriter` quoting is not modelled. The summary's one metric name needs none, and the writer is modelled only for names without `,`, `"` or line breaks.
- `uuid.uuid4()` randomness is not modelled. It is an id supply, and distinctness is proved for the ids one call draws being distinct, which is what random uuids give with overwhelming probability.
- `datetime.utcnow()` is not modelled; the run date is a parameter.
- The environment variables read at import time are not modelled. Only the bucket name matters to the model, and it is an optional parameter.
- The temporary files are not modelled: `/tmp/daily_summary.csv` and the downloaded copy. The report's text is the uploaded text, and the object's rows are what the CSV reader reads from the downloaded copy.
- `print` logging, `json.dumps(event)` and the `json.dumps` bodies are not modelled. The bodies are constant strings, quotes included.
- Invocations running at the same time are not modelled.
- `UnquotePlus`: a `%HH` octet becomes the character with that code. Runs of octets are not decoded as UTF-8, so this agrees with `unquote_plus` on ASCII octets only.
- `UnquotePlusRoundTrip`: holds for ASCII keys only. For other characters `quote_plus` writes the UTF-8 octets, and that decoding is not modelled.
- `ReportKey`: years below 1000 are padded to four digits. Linux `strftime` does not pad them, a case the clock never produces.
- `GenerateReport`: a failed upload and an unset bucket are raised with error texts that are stand-ins for boto3's.
- `ProcessUpload`: among the ways the download path can be unusable, only a path naming a directory is modelled; a last segment longer than the file system's 255-byte name limit, which the download also fails on, is not.
- `ProcessUpload`: a missing `Records`, `s3`, `bucket` or `object` field (a `KeyError`) is not modelled, since the event type always has them. The error texts are stand-ins for boto3's and the operating system's.
