# PII detection with an LLM: a Dafny model of the scanners

This project models the deterministic core of three Python scripts. The scripts
find personal data (PII) in AWS storage by sending samples of it to Amazon
Bedrock's Nova Pro model.

- `pii-detect-s3.py` scans an S3 bucket:
  - it groups the bucket listing into folders and draws a clamped random sample
    from each;
  - it derives each sampled object's file extension and chooses the request
    (image block, document block, or a text block of sampled table rows);
  - it refuses unsupported types before calling the model;
  - it builds one result record per object: either the reply merged over the
    object's metadata, with `has_pii` and the mean confidence, or an error
    record.
- `pii-detect-rds.py` scans a MySQL database on RDS or Aurora. It sizes each
  table's sample and builds a record for every table whose schema and sample are
  both non-empty. It goes over one table, one database, or every non-system
  database, behind an argument guard and a confirmation prompt.
- `pii-bounding-boxes.py` reads the S3 scanner's results file. For every record
  carrying `pii_bounding_box`, it draws each in-order box with its category
  label on the downloaded image and saves the image as `<stem>_boundingbox<ext>`.

## Modelling choices

The services are inputs, given as fields of environment datatypes holding
functions:

- S3 listing and download, Bedrock `converse`, pandas reads, MySQL queries,
  Secrets Manager, the RDS describe calls, PIL image sizes, the clock, and the
  answer typed at the prompt;
- random choices (`random.sample`, `DataFrame.sample`, `ORDER BY RAND()`) are
  constrained only by size and by being drawn from the population.

Each script's loops are methods proved against a specification function:

- `S3Sampling.GroupByFolder`, `S3Detect.DetectPii`, `S3Scan.ScanSamples` and
  `S3Scan.RunS3Scan`;
- the `RdsScan.ResultLog` class, whose methods append to the `records` field
  the way `process_single_table` appends to `results`;
- the `BoundingBoxes.Canvas` class, whose methods record the `ImageDraw` calls.

Properties are then proved about the specification functions.

Other choices:

- Rates and coordinates are Dafny reals, which are exact rationals:
  - `int()` is truncation toward zero;
  - `round()` is round-half-to-even on the exact value.
- A JSON value is the `Common.Json` datatype.
- An exception that escapes `main` is an outcome (`Crashed`, `None`,
  `LineCrashed`). In that outcome the results file is not written.

The model follows the code as written, including where its behaviour is easy
to miss:

- Sample sizes.
  - The S3 folder sample truncates with `int()`.
  - Only the S3 table-row sample uses `round()`.
  - The RDS size is neither truncated nor rounded. It is a float whenever
    1 < total·rate ≤ limit, MySQL rejects the resulting `LIMIT 20.0`, and the
    scan then raises (see Findings). At the defaults, 0.2 and 10000, that is
    every table of 6 to 50000 rows. The model's RDS tables, databases and runs
    raise there too.
  - Every clamp gives at least 1, so an empty RDS table is queried with
    `LIMIT 1`.
- Failures. Several failures raise out of `main`, and then no output file is
  written. The model keeps these as crash outcomes:
  - a reply without `pii_categories`;
  - a category without a numeric score;
  - a table whose count or sample query failed, including every table whose
    size is a float;
  - a negative limit;
  - a malformed bounding box.
- Rule files. None of the three scripts reads rule files or merges their
  matches with the model's findings, so nothing of the kind is modelled.

Where the docstrings and the code differ, the model also follows the code.
For example, the S3 `--limit` default is 100000, not the 100 of its help text,
and the S3 and RDS copies of the region-to-model choice have different
fallbacks.

## Model

| member | source | states |
|---|---|---|
| Common.Trunc | pii-detect-s3.py:85 | `int()` truncates toward zero: for x ≥ 0 the result r has r ≤ x < r + 1, and symmetrically for x < 0 |
| Common.RoundHalfEven | pii-detect-s3.py:163 | `round()` is within 1/2 of x, and a tie goes to the even integer |
| Common.ClampedSize | pii-detect-s3.py:85 | `min(max(1, int(n·rate)), limit)` never exceeds the limit, and is at least 1 whenever the limit is |
| Common.ClampedSizeAtMostCount | pii-detect-s3.py:85-91 | with 0 ≤ rate ≤ 1 the sample size of a non-empty group never exceeds the group |
| Common.ClampedSizeAtMostScaled | pii-detect-s3.py:85 | when n·rate ≥ 1 and limit ≥ 1, the clamp never rounds the size up past n·rate |
| Common.LastIndexOf | pii-detect-s3.py:296 | the position of the last occurrence of a character (−1 if none); no later position holds it |
| Common.Count | pii-detect-s3.py:301 | `str.count` of one character is zero exactly when the character is absent |
| Paths.Basename | pii-detect-s3.py:296 | `key.split('/')[-1]` is the suffix after the last '/': it holds no '/', the key ends with it, and it is preceded by a '/' unless it is the whole key |
| Paths.Dir | pii-detect-s3.py:73 | `'/'.join(key.split('/')[:-1]) + '/'` ends in '/', and it followed by the basename gives back the key |
| Paths.SplitExt | pii-bounding-boxes.py:59 | `os.path.splitext`: stem + extension is the path, and the extension is empty or one leading '.' with no further '.' or '/' |
| Paths.SplitExtCharacterised | pii-bounding-boxes.py:59 | the split is at the last '.' of the final component, with a non-dot before it there; when there is no extension, no '.' follows a non-dot in the final component, so leading dots never start one |
| Paths.SplitExtInsert | pii-bounding-boxes.py:59 | inserting text without '.' or '/' between stem and extension keeps the split: the new stem is old stem + text, the extension is unchanged |
| Paths.Join | pii-bounding-boxes.py:59 | `os.path.join(dir, name)` ends with the name; an absolute name replaces the directory, and any other name follows the directory, with a '/' inserted between them when needed |
| Paths.JoinBasename | pii-bounding-boxes.py:59 | a name without '/' joined under any directory is the last component of the result |
| ModelIds.S3ModelIdCases | pii-detect-s3.py:22-33 | "ap…" gives `apac.`, "eu…" gives `eu.`, "us…" gives `us.`, and any other region gives `eu.`, each prefixed to `amazon.nova-pro-v1:0` |
| ModelIds.RdsModelIdCases | pii-detect-rds.py:21-32 | the same prefixes, but any other region gives `apac.` |
| ModelIds.PrefixesExclusive | pii-detect-s3.py:26-31 | no region starts with two of the known prefixes, so the order of the tests does not matter |
| ModelIds.CopiesAgreeOnKnownRegions | pii-detect-rds.py:21-32 | the RDS copy and the S3 copy (pii-detect-s3.py:22-33) give the same id exactly for regions with a known prefix |
| Cli.StripSplit | pii-detect-s3.py:284 | `strip()` removes only surrounding whitespace: the input is whitespace + the result + whitespace, and the result has none at either end |
| Cli.StripSurrounded | pii-detect-rds.py:375 | stripping trimmed text surrounded by whitespace gives that text |
| Cli.ConfirmedAnswer | pii-detect-rds.py:375-378 | the scan proceeds exactly when the stripped, lower-cased answer is "y" or "yes" |
| Cli.ConfirmedExamples | pii-detect-s3.py:284-287 | " YES\n" confirms and "yes please" does not |
| S3Sampling.GroupByFolder | pii-detect-s3.py:54-78 | the listing loop and the root-group assignment compute FolderGroups of the listing |
| S3Sampling.CollectCharacterised | pii-detect-s3.py:57-74 | after the loop, `root_objects` is the root objects in listing order, and each folder holds exactly its members in listing order, with a key only when non-empty |
| S3Sampling.FolderGroupsCharacterised | pii-detect-s3.py:54-78 | every folder other than '/' holds exactly its objects in order; '/' holds the root objects when there are any, otherwise the leading-slash keys' group; no group is empty; folder order lists each key once |
| S3Sampling.FolderMembersOnly | pii-detect-s3.py:72-74 | an object is in a folder's group exactly when it is listed, is not a folder marker, is not a root object, and the folder is its key up to the last '/' |
| S3Sampling.RootMembersOnly | pii-detect-s3.py:64-70 | an object is a root object exactly when it is listed, does not end in '/', and holds no '/' |
| S3Sampling.Placement | pii-detect-s3.py:64-78 | a grouped object is never a folder marker and sits only under its own group key; every other listed object is grouped, except a leading-slash key when root objects exist |
| S3Sampling.LeadingSlashObjectsDropped | pii-detect-s3.py:77-78 | when root objects exist, an object whose only '/' is its first character is in no group, because the root list replaces its group '/' |
| S3Sampling.SampleFolder | pii-detect-s3.py:85-98 | the entry records the folder, `total_objects` = group size and `sample_size` = number drawn = min(clamped size, group size); the draw is a sub-multiset of the group; the whole group is taken when the size reaches it; it raises exactly when the size is negative |
| S3Sampling.SampleByFolder | pii-detect-s3.py:81-100 | the sampling loop computes SampleData |
| S3Sampling.SampleFoldersRaise | pii-detect-s3.py:83-89 | over non-empty groups, sampling raises exactly when the limit is negative and there is a folder |
| S3Sampling.SampleFoldersShape | pii-detect-s3.py:83-98 | one entry per folder, in folder order, each as SampleFolder states |
| S3Sampling.SampleDataShape | pii-detect-s3.py:35-100 | `sample_s3_data_by_folder` raises exactly for a negative limit on a non-empty listing; otherwise it gives one well-formed entry per folder in insertion order |
| S3Detect.AfterLastDot | pii-detect-s3.py:303 | `split('.')[-1]` holds no '.', ends the name, and follows a '.' unless it is the whole name |
| S3Detect.ExtensionOfNameCharacterised | pii-detect-s3.py:296-312 | an extension exists exactly when a '.' occurs after the first character; it is then the '.'-free text after the last '.' |
| S3Detect.HiddenFileExample | pii-detect-s3.py:304-306 | ".env" has no extension |
| S3Detect.HiddenFileWithExtensionExample | pii-detect-s3.py:301-303 | ".a.md" has extension "md" |
| S3Detect.TrailingDotExample | pii-detect-s3.py:310-312 | "a." has the empty extension |
| S3Detect.NormaliseExt | pii-detect-s3.py:122-123 | "jpg" becomes "jpeg" and every other extension, or its absence, passes through unchanged, so the result is never "jpg" |
| S3Detect.ModalityOfLists | pii-detect-s3.py:124-150 | an image request exactly for png/jpeg/gif/webp, a document request exactly for pdf/doc/docx/xls/xlsx/html/txt/md, a table request exactly for json/jsonl/csv/tsv |
| S3Detect.TabularSampleSizeBounds | pii-detect-s3.py:163 | with 0 ≤ rate ≤ 1 and limit ≥ 1 the row sample size is between 1 and max(1, n), and exceeds n only for an empty table |
| S3Detect.RequestShape | pii-detect-s3.py:119-178 | an unsupported type gets no request; otherwise the content is the type's block followed by the instruction block; the table block has the frame's columns and `min(max(1, round(n·rate)), limit)` rows drawn from the frame; only a table read can raise |
| S3Detect.TabularRaisesOnlyWhenEmpty | pii-detect-s3.py:162-165 | a table request raises exactly when the table has no rows, since `DataFrame.sample(n=1)` then exceeds it |
| S3Detect.DetectPii | pii-detect-s3.py:102-202 | the content-building method computes Detect |
| S3Detect.UnsupportedNeverCalls | pii-detect-s3.py:199-202 | an unsupported type returns "ERROR: Can't invoke '<id>'. Reason: File type <ext> is not supported." whatever the services do |
| S3Detect.JpgIsJpeg | pii-detect-s3.py:122-123 | "jpg" is treated exactly as "jpeg" and is an image |
| S3Detect.SupportedOutcome | pii-detect-s3.py:188-198 | a supported request returns the reply, or the error text with the call's reason |
| S3Scan.BaseRecord | pii-detect-s3.py:314-325 | the record starts with exactly the nine metadata keys, plus `presigned_url` in debug mode |
| S3Scan.StartRecord | pii-detect-s3.py:314-325 | the assignments build BaseRecord |
| S3Scan.FileExtension | pii-detect-s3.py:296-312 | the branches compute ExtensionOf the key |
| S3Scan.SumCategoryScores | pii-detect-s3.py:333 | the loop summing category scores computes SumScores; it is None when a score is missing or non-numeric |
| S3Scan.SumOverDefined | pii-detect-s3.py:333 | the sum exists exactly when every category has a numeric score |
| S3Scan.MeanWithin | pii-detect-s3.py:333 | when every category score lies in [lo, hi], the mean confidence lies in [lo, hi] |
| S3Scan.SumExample | pii-detect-s3.py:333 | two categories scored 1.0 and 0.8 sum to 1.8 |
| S3Scan.MeanExample | pii-detect-s3.py:333 | and their mean is 0.9 |
| S3Scan.FinishSuccess | pii-detect-s3.py:329-336 | the success branch computes SuccessRecord |
| S3Scan.SuccessRecordDefined | pii-detect-s3.py:329-333 | a success record exists exactly when `pii_categories` has a length and, if non-empty, every category has a numeric score; a reply without `pii_categories` raises |
| S3Scan.SuccessRecordValues | pii-detect-s3.py:330-336 | `has_pii` is "categories non-empty"; `confidence_score` is the mean when `has_pii` holds, and is otherwise whatever the reply (or nothing) left; the token counts and timestamp are the reply's and the clock's |
| S3Scan.SuccessRecordKeys | pii-detect-s3.py:330-336 | the keys are the base's, the reply's, and the derived ones; reply values override base values except for the derived keys |
| S3Scan.ErrorRecord | pii-detect-s3.py:343-347 | an error record is the base plus exactly `error` (the message) and `timestamp`; nothing else changes |
| S3Scan.ProcessObject | pii-detect-s3.py:293-347 | one loop iteration yields the record ObjectRecord defines, or raises |
| S3Scan.PairsCount | pii-detect-s3.py:271-272 | the number of objects processed is the summed `sample_size` reported as "Total objects to scan" |
| S3Scan.RecordsShape | pii-detect-s3.py:291-347 | the records exist exactly when no object raises; then there is one record per sampled object, in folder-then-sample order |
| S3Scan.ScanFolder | pii-detect-s3.py:293-348 | the inner loop extends the results by the records of one folder's samples |
| S3Scan.ScanSamples | pii-detect-s3.py:291-348 | the nested loops compute the records of all sampled objects |
| S3Scan.RunS3Scan | pii-detect-s3.py:243-352 | main computes S3Run: sample, confirm unless `-y`, build the records |
| S3Scan.SavedRun | pii-detect-s3.py:267-351 | a saved run was confirmed or bypassed; it holds exactly one record per sampled object, their number is the total reported, and each record is its object's |
| S3Scan.NegativeLimitCrashes | pii-detect-s3.py:85-89 | a negative `--limit` on a non-empty listing always raises in `random.sample` |
| RdsScan.AsWrittenIsFloat | pii-detect-rds.py:155 | the size as written is a float exactly when 1 < total·rate ≤ limit, and is then total·rate itself |
| RdsScan.AsWrittenAccepted | pii-detect-rds.py:155-163 | the size as written is a valid `LIMIT` (a non-negative int) exactly when limit ≥ 0 and total·rate ≤ 1 or > limit |
| RdsScan.AsWrittenBounds | pii-detect-rds.py:155 | with limit ≥ 1 the value lies in [1, limit], and an empty table gives 1 |
| RdsScan.DefaultRateRejected | pii-detect-rds.py:155-163 | 100 rows at the default rate 0.2 and limit 10000 give the float 20.0, which `LIMIT` rejects; the truncated size is 20 |
| RdsScan.CorrectedTruncates | pii-detect-rds.py:155 | truncating the clamped value equals clamping the truncated value, so the corrected size is `int()` of the written one |
| RdsScan.SampleSizeBounds | pii-detect-rds.py:155 | the corrected size lies in [1, limit] when limit ≥ 1, is 1 for an empty table, is non-negative exactly when the limit is, and is the truncation of the value as written |
| RdsScan.GetSampleData | pii-detect-rds.py:134-174 | as written: a sample carries the table's row count and the rows the sample query returned for its size; that size is the untruncated clamp, which is then an int equal to ClampedSize of the count; a count whose clamp is a float or negative (a `LIMIT` MySQL rejects) gives None, as does a failed count |
| RdsScan.GetSampleDataCorrected | pii-detect-rds.py:155 | the intended `get_sample_data`, with `int()`: a sample carries the count and the truncated clamp of it |
| RdsScan.CorrectedSamples | pii-detect-rds.py:150-163 | corrected, a table is sampled exactly when its count succeeds, the limit is not negative and the sample query succeeds; no scaled count is rejected |
| RdsScan.CorrectedAgrees | pii-detect-rds.py:155-169 | the written and corrected versions agree whenever the written size is a valid `LIMIT`; otherwise the written one gives None |
| RdsScan.TableFields | pii-detect-rds.py:231-244 | before the call the record holds exactly the five identity keys plus `sample_size` and `total_row`, with the database, table, size and count |
| RdsScan.SuccessTableRecord | pii-detect-rds.py:248-259 | a reply's keys are merged over the fields; token counts and timestamp are written over both |
| RdsScan.ErrorTableRecord | pii-detect-rds.py:260-263 | an error adds exactly `error`, the "Can't invoke" text with the call's reason, and `timestamp` |
| RdsScan.TableAppendsIff | pii-detect-rds.py:239-244 | a table that does not raise appends a record exactly when its schema is non-empty and its sample is non-empty (count > 0 and limit ≥ 1) |
| RdsScan.AppendedRecordFields | pii-detect-rds.py:231-263 | an appended record always has the identity and size keys and the table's timestamp; `sample_size` and `table_name` keep their values unless the reply overrides them; an error record has exactly the fields, `error` and `timestamp` |
| RdsScan.FloatLimitCrashes | pii-detect-rds.py:155-240 | as written, a table whose count gives 1 < total·rate ≤ limit raises: `LIMIT` gets a float, `get_sample_data` returns None and the unpacking fails |
| RdsScan.Contribution | pii-detect-rds.py:242-263 | a table adds at most one record |
| RdsScan.CollectOrder | pii-detect-rds.py:271-277 | the records come from appending tables, in table-list order, one per table; every other table appends nothing |
| RdsScan.TablesRecordsOrder | pii-detect-rds.py:265-277 | `process_database` appends one record per appending table in table-list order, and nothing for the others |
| RdsScan.CollectCrash | pii-detect-rds.py:271-277 | the loop over tables raises exactly when some table raises |
| RdsScan.TablesRecordsCrash | pii-detect-rds.py:265-277 | the same for the tables of a database |
| RdsScan.UserDatabasesMembers | pii-detect-rds.py:397-399 | the databases scanned are exactly the listed ones other than information_schema, mysql, performance_schema and sys |
| RdsScan.FullScanSkipsSystem | pii-detect-rds.py:394-402 | a full scan is the scan of the user databases in listing order: system databases contribute nothing and are never processed |
| RdsScan.ResultLog.constructor | pii-detect-rds.py:339 | the results list starts empty |
| RdsScan.ResultLog.ProcessSingleTable | pii-detect-rds.py:226-263 | appends the table's contribution to `records` and raises exactly when the table does, a float size included; a raise leaves `records` unchanged |
| RdsScan.ResultLog.ProcessDatabase | pii-detect-rds.py:265-277 | appends the database's records in table order, and raises exactly when listing or one table does (at the first float-size table, say); either way the earlier records stay a prefix |
| RdsScan.ResultLog.ProcessAllDatabases | pii-detect-rds.py:396-402 | appends the full scan's records, skipping system databases, and raises exactly when the full scan does; the earlier records stay a prefix |
| RdsScan.RunRds | pii-detect-rds.py:279-406 | main as written computes RdsRun: guard, lookup, secret, existence checks, confirmation, then the targeted scan, which crashes on any float-size table |
| RdsScan.TableWithoutDatabase | pii-detect-rds.py:308-310 | `--table-name` without `--db-name` stops before any service is used, whatever the services would answer |
| RdsScan.SavedRun | pii-detect-rds.py:315-405 | a saved run was confirmed, found the instance and the secret, named an existing database (and table) when given, and saved exactly the targeted records |
| RdsScan.FloatLimitRunCrashes | pii-detect-rds.py:375-406 | as written, a confirmed scan of one named table whose size is a float ends in a crash, with no file written |
| RdsScan.DeclinedRunCancelled | pii-detect-rds.py:375-378 | an unconfirmed run never saves |
| BoundingBoxes.BoxOf | pii-bounding-boxes.py:42 | a box is unpacked only from a list of exactly four entries |
| BoundingBoxes.ScaledValid | pii-bounding-boxes.py:47-50 | on an image of positive size, scaling by w/1000 and h/1000 keeps x1 < x2 and y1 < y2 |
| BoundingBoxes.CategoryBoxes | pii-bounding-boxes.py:41-42 | a category's boxes, when all unpack, are as many as its list entries |
| BoundingBoxes.KeptMembers | pii-bounding-boxes.py:42-44 | a box is drawn exactly when it is one of the boxes and x1 < x2 and y1 < y2; no box is clamped into validity |
| BoundingBoxes.KeptOrder | pii-bounding-boxes.py:40-44 | the drawn boxes keep the category-then-list order, and every box skipped is out of order |
| BoundingBoxes.DrawListShape | pii-bounding-boxes.py:47-56 | kept box k gives call 2k, its scaled rectangle, and call 2k+1, its category at (x1, y1 − 20); nothing else is drawn |
| BoundingBoxes.DrawnRectsValid | pii-bounding-boxes.py:40-56 | on an image of positive size, every rectangle drawn has its corners in order |
| BoundingBoxes.KeptAppend | pii-bounding-boxes.py:40-44 | filtering boxes category by category is filtering them all |
| BoundingBoxes.DrawListAppend | pii-bounding-boxes.py:40-56 | the calls for two runs of boxes are the calls for each, in order |
| BoundingBoxes.Canvas.constructor | pii-bounding-boxes.py:30-31 | a fresh drawing has the image's size and no calls |
| BoundingBoxes.Canvas.Rectangle | pii-bounding-boxes.py:53 | `draw.rectangle` adds exactly one rectangle call |
| BoundingBoxes.Canvas.Text | pii-bounding-boxes.py:56 | `draw.text` adds exactly one label call |
| BoundingBoxes.Canvas.DrawBox | pii-bounding-boxes.py:47-56 | one kept box adds its scaled rectangle, then its label |
| BoundingBoxes.Canvas.DrawCategory | pii-bounding-boxes.py:41-56 | the inner loop adds the calls of the category's in-order boxes and skips the rest; it raises exactly when an entry is not a box |
| BoundingBoxes.Canvas.DrawBoxes | pii-bounding-boxes.py:40-56 | the two loops add exactly Drawing of the detection, and raise exactly when it is undefined |
| BoundingBoxes.OutputNameParts | pii-bounding-boxes.py:59 | the saved path is the output directory followed (after a '/' when needed) by the file name, which is the local name with `_boundingbox` before the extension; it is the path's last component and has the same extension |
| BoundingBoxes.SkippedIff | pii-bounding-boxes.py:17-19 | a JSON-object line is skipped exactly when its `pii_bounding_box` is missing or falsy |
| BoundingBoxes.AnnotatedImage | pii-bounding-boxes.py:21-60 | a saved image comes from a line with boxes, a string bucket and key, and a readable image; it is saved under OutputName of its key and holds the drawing of its boxes at the image's size |
| BoundingBoxes.ProcessLines | pii-bounding-boxes.py:13-65 | no more images are saved than there are lines |
| BoundingBoxes.CrashIsFinal | pii-bounding-boxes.py:13-65 | once a line raises, later lines change nothing, and images saved before stay saved |
| BoundingBoxes.AnnotateLine | pii-bounding-boxes.py:15-60 | one iteration of the loop computes LineOutcome |
| BoundingBoxes.DrawAndSave | pii-bounding-boxes.py:25-60 | the drawing and saving of one opened image computes ImageOutcome |
| BoundingBoxes.ProcessDetections | pii-bounding-boxes.py:7-65 | the loop over the lines computes ProcessLines |

## Left out

- AWS clients are inputs, not modelled: S3 listing, download and presigning; Bedrock `converse`; RDS `describe_db_*`; Secrets Manager. So are MySQL, pandas and PIL. The RDS endpoint, host, port and credentials are not carried into any record.
- Randomness is modelled only by the size of the draw and by being a sub-multiset of the population. No particular choice is modelled.
- Floating point is not modelled: rates, the mean confidence and pixel coordinates are exact reals. So `round()` and `int()` act on exact values, and binary rounding of `n·rate` is not captured.
- `json.loads` of the reply is not modelled: the reply is taken as already parsed into a map. Reply text that is not JSON, which the source does not catch, is not modelled.
- The JSONL writer, `print`, `input` (its answer is a parameter), `time.sleep`, argparse, `os.makedirs`, `os.remove` and the font choice are not modelled.
- `time.sleep(delay)` (pii-detect-s3.py:348, pii-detect-rds.py:277) raises ValueError for a negative `--delay`. That ends an S3 run after its first object and an RDS database scan after its first table. This crash is not modelled: the model has no delay.
- RdsScan.GetSampleDataCorrected: the correction is stated for the sample step alone. Tables, databases and runs use GetSampleData as written, so no run with the corrected size is modelled.
- Python dictionaries are unordered maps wherever key order cannot affect behaviour. The order of keys inside a record is not modelled. Where order does matter, it is modelled: S3 folders keep insertion order, and bounding-box categories keep their order in the file.
- The clock is an input keyed by the record's position (S3) or by the database and table (RDS).
- RDS `rds_detect_pii`: if creating the Bedrock client raises, the handler refers to `model_id` before it is assigned (pii-detect-rds.py:179-208). The model lets the call fail only after the model id is known, so that case is not modelled.
- S3 `--debug`: the presigned URL is an input function. A presigning failure gives `null`, as the source's `return None` does.
- Bounding boxes: a JSON string or object in place of a box list, or non-numeric coordinates, is treated as raising. Python would sometimes iterate or compare such values before raising, or would never raise.
- Bounding boxes: colours, line width and font are not modelled; only the geometry and the label text of each call are.
- prompt.py is not part of this model. The system prompt is a constant passed to the model and drives no branch.
- pii-s3-result-preview.py is not part of this model.

## Findings

| source | as written | input that shows it | evidently intended | confidence | as-written member | corrected member |
|---|---|---|---|---|---|---|
| pii-detect-rds.py:155-163 | `sample_size = min(max(1, total_count * sample_rate), limit)` has no `int()`. It is a float whenever 1 < total·rate ≤ limit, and it is interpolated into `LIMIT 20.0`, which MySQL rejects. `get_sample_data` then returns None, and the unpacking on line 240 raises, ending the scan. | a table of 100 rows at the default rate 0.2 and limit 10000 | truncate with `int()`, as the S3 scanner does at pii-detect-s3.py:85, giving `LIMIT 20` | high (derived from the code; not executed) | RdsScan.FloatLimitRunCrashes (on RdsScan.GetSampleData; also RdsScan.FloatLimitCrashes, RdsScan.DefaultRateRejected, RdsScan.AsWrittenIsFloat, RdsScan.AsWrittenAccepted) | RdsScan.GetSampleDataCorrected (RdsScan.CorrectedSamples, RdsScan.CorrectedAgrees, with Common.ClampedSize, RdsScan.SampleSizeBounds and RdsScan.CorrectedTruncates) |
