# kdb+ month-shard ingestion, modelled in Dafny

This project models the ingestion core of a small Python repository. The repository loads
gzipped, pipe-separated market-data extracts (order-book levels and trades) into a partitioned
kdb+ database through a q process.

`setup_kdb.py` processes each month on its own q process, for books and trades separately:
- the q process listens on a port derived from the month;
- the month's archives are selected from a directory listing by a regular expression and
  sorted;
- each archive is optionally copied to a staging directory, decompressed next to itself, and
  loaded into a global q table;
- the table gets `sym` and a combined `time`, and the sentinel rows and five helper columns are
  deleted;
- the columns are reordered with `xcols`, and the table is written as one date partition with
  `.Q.dpft`;
- the temporary files are then removed;
- a `finally` block tears the connection down.

`example/example_extract.py` is an earlier trial of the trades path against a test database.
The model follows that code as written. Its five messages go out with `q.query`, which never
reads q's reply, so an error in q neither raises nor stops the later messages. Any temporary
directory makes it raise at line 33.

Modules, one concern each:

- `Outcomes` (text.dfy): `Option`, `Result`, and the exceptions the scripts can raise.
- `Text` (text.dfy): Python's `str.replace`, the `in` test for substrings, digit strings and
  their values, zero padding, and Python's ordering of `str`.
- `Paths` (paths.dfy): Windows `os.path.join` and `os.path.basename`, the backslash-to-slash
  rewrite, and the first `_`-separated token.
- `Selection` (selection.dfy): the two file patterns, the filtered listing, and `list.sort()`
  as an in-place insertion sort on an `array`.
- `Dates` (dates.dfy): `datetime.strptime(token, '%Y%m%d')` (CPython's regex alternation order,
  then calendar validity) and `strftime("%Y.%m.%d")`.
- `Relation` (relation.dfy): q tables as column lists plus rows. It covers:
  - the seconds-of-day arithmetic with q's floor `div`/`mod`;
  - the derived `sym`/`time`;
  - the sentinel row deletes;
  - the helper-column delete;
  - `xcols`.
- `Engine` (engine.dfy): the statements the scripts send, how q runs them against its global
  tables, and a `Session` class for the connection. The class has an open flag, the q process's
  tables and partitions, and a trace of calls. It has both call forms: `q(...)` reads q's reply
  and raises on q's error; `q.query(...)` only writes the message.
- `Storage` (storage.dfy): a `FileSystem` class whose `files` map is updated by copy,
  decompress and remove.
- `Ingest` and `IngestFacts` (ingest.dfy): `process_book_file`, `process_trade_file` and
  `clean_up_files` as methods, each proved against a function of the old state, plus what that
  function promises.
- `Shard` (shard.dfy): `process_month_books` and `process_month_trades`.
- `ExampleExtract` (example.dfy): `process_trade_file` and `main` of the example script.

Python exceptions are `Err`/`Raised` values. In the month driver they propagate the way a
`try` without `except` propagates them: through the `finally` block. The outside world enters
as parameters:
- what a directory listing returns (a map from directory to entries);
- whether the spawned q process accepts the connection;
- how q parses a file (`Env.parse`);
- what gzip decompression yields (`Env.gunzip`).

Where the code and the design description disagree, the model follows the code. The design
describes a reset step that clears the table binding between files. The code has none: the
next file's load statement simply rebinds `books` or `trades`. `IngestFacts.ScriptOutcome`
proves that the earlier binding plays no part in the outcome.

## Model

| member | source | states |
|---|---|---|
| Text.Replace | setup_kdb.py:76 | `str.replace`: replacing by nothing never lengthens the text, and every character left was in the input |
| Text.ReplaceAbsent | example/example_extract.py:43 | a pattern that does not occur leaves the text unchanged |
| Text.RemoveShortens | setup_kdb.py:76 | removing a pattern that occurs makes the text strictly shorter |
| Text.ReplaceCharGone | setup_kdb.py:62 | after replacing a character by text without it, the character no longer occurs |
| Text.ReplaceSplits | setup_kdb.py:76 | when no occurrence can straddle the seam, replacing a concatenation replaces each half |
| Text.OccursChar | setup_kdb.py:76 | a one-character pattern occurs exactly when the character is in the text |
| Text.PadValue | setup_kdb.py:58 | writing back the value of a digit string at its own width gives the string back |
| Text.Pad | setup_kdb.py:58 | zero padding to a width gives exactly that many digits |
| Text.NotAfterTotal | setup_kdb.py:174 | Python's `<=` on `str` is total |
| Text.NotAfterTransitive | setup_kdb.py:174 | Python's `<=` on `str` is transitive |
| Text.NotAfterAntisymmetric | setup_kdb.py:174 | Python's `<=` on `str` is antisymmetric |
| Paths.ToSlashes | setup_kdb.py:62 | `.replace("\\", "/")` keeps the length and leaves no backslash |
| Paths.SlashedJoin | setup_kdb.py:62 | for a directory entry, the slashed join is a slashed directory text followed by the entry name itself |
| Paths.AfterLastSep | setup_kdb.py:58 | the text after the last separator is a separator-free suffix, preceded by a separator when shorter than the path |
| Paths.FirstToken | setup_kdb.py:58 | `split("_")[0]` is the longest prefix without '_', and it is followed by '_' when shorter than the text |
| Paths.BasenameOfEntry | setup_kdb.py:58 | the basename of a directory text followed by an entry name is that entry name |
| Paths.RemoveGzFromEntryPath | setup_kdb.py:76 | removing ".gz" from a directory text followed by a name acts on the two parts separately |
| Selection.SpellingMatches | setup_kdb.py:167-170 | every name spelled as month, two digits, '_', a non-empty run without whitespace, the marker, any non-newline character, "csv", any non-newline character, "gz" (optionally one final newline) is selected |
| Selection.MatchIsSpelling | setup_kdb.py:167-170 | every selected name is such a spelling, with admissible pieces: with SpellingMatches, selection holds if and only if the name has this form |
| Selection.MatchPieces | setup_kdb.py:167 | the two-digit day, the run, and the two wildcard characters of a selected name are admissible pieces (digits, no whitespace, no newline) |
| Selection.Leading | setup_kdb.py:167 | a selected name starts with its month, two more digits and '_' |
| Selection.KindsDisjoint | setup_kdb.py:169-170 | no name matches both the book pattern and the trade pattern, whatever the two months |
| Selection.MonthsDisjoint | setup_kdb.py:169-170 | no name matches the patterns of two different digit months of the same length, whatever the kinds |
| Selection.Select | setup_kdb.py:170 | the list comprehension keeps exactly the listed entries the pattern matches |
| Selection.SelectionsDisjoint | setup_kdb.py:169-170 | the book and trade selections of a listing share no entry |
| Selection.SortInPlace | setup_kdb.py:174 | `list.sort()` in place: the array ends ascending under Python's `str` order and is a permutation of what it held |
| Selection.AscendingUnique | setup_kdb.py:174 | two ascending arrangements of the same multiset are equal, so the sorted order is determined by the selection |
| Selection.SortedSelection | setup_kdb.py:170-174 | the files a month meets are the selection, ascending, as a permutation |
| Dates.DaysInMonth | setup_kdb.py:58 | month lengths lie between 28 and 31, and February has 29 days exactly in a leap year |
| Dates.MonthAlts | setup_kdb.py:58 | the alternatives of `%m` that match are one or two characters and read a month 1 to 12 |
| Dates.DayAlts | setup_kdb.py:58 | the alternatives of `%d` that match are one or two characters and read a day 1 to 31 |
| Dates.FirstFollowed | setup_kdb.py:58 | backtracking stops at the first month alternative after which some day alternative matches, and at none when none does |
| Dates.Strptime | setup_kdb.py:58 | every parsed date is a valid calendar date, and every failure is ValueError on the token |
| Dates.EightDigits | setup_kdb.py:58 | an eight-digit token parses exactly when YYYY, MM, DD form a valid date, and then to that date |
| Dates.CompactRoundTrip | setup_kdb.py:58 | the eight-digit spelling of any valid date parses back to that date |
| Dates.EightDigitsFormat | setup_kdb.py:58 | formatting a parsed eight-digit token inserts '.' after its fourth and sixth digits |
| Dates.DayPastMonthEnd | setup_kdb.py:58 | a day past the end of its month raises ValueError |
| Dates.NoLeapDay | setup_kdb.py:58 | February 29 of a common year raises ValueError |
| Dates.LeapDay | setup_kdb.py:58 | February 29 of a leap year parses |
| Dates.Format | setup_kdb.py:58 | `strftime("%Y.%m.%d")` is ten characters, digits with '.' at positions 4 and 7 |
| Dates.DateString | setup_kdb.py:57-58 | the date string is the formatted parse of the first `_` token of the basename, and fails with ValueError on that token exactly when the parse fails; for an eight-digit token it succeeds exactly when YYYY, MM, DD form a valid date, and is then the token with '.' after its fourth and sixth digits (example/example_extract.py:25-26 is the same function, and the model uses this one for both) |
| Dates.EightDigitToken | setup_kdb.py:58 | an eight-digit token parses exactly when the date it spells is valid, and formats to the token with '.' after its fourth and sixth digits |
| Relation.QDiv | setup_kdb.py:88 | q's `div` by a positive int is the floor quotient |
| Relation.QMod | setup_kdb.py:88 | q's `mod` by a positive int is the non-negative remainder that goes with `div` |
| Relation.SecondsOfClock | setup_kdb.py:88 | the right-to-left term gives 3600·HH + 60·MM + SS for raw = HH·10000 + MM·100 + SS with MM, SS < 100, for any sign of HH |
| Relation.SecondsInDay | setup_kdb.py:88 | for a clock time (HH < 24, MM < 60, SS < 60) the seconds lie in [0, 86400) |
| Relation.Midnight | setup_kdb.py:88 | raw 0 gives 0 seconds |
| Relation.LastSecond | setup_kdb.py:88 | raw 235959 gives 86399 seconds |
| Relation.DeriveRow | setup_kdb.py:88 | a row gains exactly `sym` (the ISIN) and `time` (date, milliseconds and seconds of day), and every other cell is kept |
| Relation.Derive | setup_kdb.py:88 | the update succeeds exactly when the four source columns exist and every row is typed; it appends `sym`/`time` to the columns if absent and keeps the row count |
| Relation.DeriveWellFormed | setup_kdb.py:88 | deriving keeps the columns distinct and the rows' keys equal to the columns |
| Relation.Hits | setup_kdb.py:89 | `Price=0` holds exactly for a zero int or float; `Bid_Px_Lev_0<=0` holds for a null float or a value at most zero |
| Relation.SentinelsDiffer | setup_kdb.py:124 | a negative price is kept by the trade filter while a negative bid is deleted by the book filter; a null is kept by one and deleted by the other |
| Relation.Keep | setup_kdb.py:89 | the rows kept are rows of the table, none of them deleted by the guard |
| Relation.KeepKeepsSurvivors | setup_kdb.py:89 | every row the guard does not delete survives |
| Relation.KeepSplits | setup_kdb.py:89 | the filter works row by row, so surviving rows keep their order |
| Relation.KeepIdempotent | setup_kdb.py:89 | filtering twice equals filtering once |
| Relation.DropRows | setup_kdb.py:89 | the delete succeeds exactly when the guard column exists and every row is comparable; the columns stay, and a row is kept if and only if the guard does not hold on it |
| Relation.DropRowsIdempotent | setup_kdb.py:89 | running the row delete a second time changes nothing |
| Relation.WithoutMembers | setup_kdb.py:89 | the columns left are exactly the old columns not named |
| Relation.DropColumns | setup_kdb.py:89 | the column delete succeeds exactly when every named column exists; it removes those names from the column list and from every row |
| Relation.XCols | setup_kdb.py:90 | `xcols` succeeds exactly when the leading columns exist, puts them first and leaves the rows alone |
| Relation.XColsMembers | setup_kdb.py:90 | `xcols` only reorders: the set of columns is unchanged |
| Relation.PipelineCols | setup_kdb.py:87-90 | after the whole transform the columns are the leading list followed by the other loaded and derived columns, helpers removed, in their existing order |
| Relation.BookColumns | setup_kdb.py:87-90 | books end with `sym`, `time`, then the loaded columns without the helpers, in load order |
| Relation.BookColumnCount | setup_kdb.py:87-90 | 24 distinct loaded book columns including the five helpers end as 21 columns |
| Relation.TradeColumns | setup_kdb.py:122-125 | 8 distinct loaded trade columns (the helpers, Price, Qty, Volume) end as exactly `sym,time,Price,Qty,Volume` |
| Relation.PipelineRows | setup_kdb.py:88-89 | the rows written are the surviving derived rows, in order, without the helper cells |
| Engine.Exec | setup_kdb.py:87-91 | a failing statement is a q error; only `.Q.dpft` writes a partition, recording the table as it stands, and it needs the table and its `sym` column |
| Engine.RunSplits | setup_kdb.py:89 | a message of several statements runs them in order and stops at the first error |
| Engine.Step | setup_kdb.py:87 | a message on a connection that is not open raises; only a q error or a closed connection make a message raise; "\\" changes nothing on q's tables |
| Engine.Drive | setup_kdb.py:87-91 | consecutive messages stop at the first that raises, and all were sent when none raised |
| Engine.DriveOne | setup_kdb.py:87 | a one-statement message runs that statement, then the rest |
| Engine.DriveTwo | setup_kdb.py:89 | a two-statement message runs both in order, then the rest |
| Engine.Session.Open | setup_kdb.py:162-164 | a listening process opens the connection and records it; otherwise the connection is refused and nothing changes |
| Engine.Session.Send | setup_kdb.py:87 | `q(...)` runs the message on q's tables as Step says and records it when the connection was open |
| Engine.Session.Close | setup_kdb.py:185 | `q.close()` leaves the connection closed, recording a close only when it was open |
| Engine.Session.Release | setup_kdb.py:230 | `q_process.close()` records the release and changes nothing else |
| Engine.Posted | example/example_extract.py:46 | `q.query(...)` raises only on a connection that is not open; otherwise it returns normally, whatever q made of the message |
| Engine.PostedHidesErrors | example/example_extract.py:46 | `q.query(...)` leaves q exactly as `q(...)` does and differs from it only in hiding q's error |
| Engine.PostedAll | example/example_extract.py:46-52 | consecutive `q.query(...)` calls all go out on an open connection, and only a closed connection raises, at the first call, with nothing changed |
| Engine.PostedAllSplits | example/example_extract.py:46-52 | posting two runs of messages leaves what posting the first and then the second leaves |
| Engine.PostedOne | example/example_extract.py:46 | a one-statement message leaves what its statement left, or q's state as it was when the statement fails |
| Engine.PostedTwo | example/example_extract.py:48 | a two-statement message runs the second statement only after the first succeeded |
| Engine.Session.Post | example/example_extract.py:46 | `q.query(...)` changes q as Posted says and records the message when the connection was open |
| Engine.PostScript | example/example_extract.py:46-52 | the five `q.query(...)` calls change q and the trace as PostedAll says |
| Engine.SentAllSplits | setup_kdb.py:87-91 | the trace of consecutive messages is the concatenation of their traces |
| Storage.CopyFile | setup_kdb.py:70 | `shutil.copyfile` succeeds exactly for an existing source other than the target, and then the target holds the source's bytes |
| Storage.Decompressed | setup_kdb.py:77-79 | decompression creates or truncates the target before reading; it fails for a missing archive (nothing written) or a bad stream; it changes no other file |
| Storage.Removed | setup_kdb.py:44 | `os.remove` succeeds exactly for an existing file and removes only it |
| Storage.FileSystem.Copy | setup_kdb.py:70 | the file map after the copy is CopyFile of the old map |
| Storage.FileSystem.Decompress | setup_kdb.py:77-79 | the file map after decompression is Decompressed of the old map |
| Storage.FileSystem.Remove | setup_kdb.py:44 | the file map after the removal is Removed of the old map |
| Ingest.Script | setup_kdb.py:87-91 | five messages, all queries, in the order load, update, two deletes, `xcols`, `.Q.dpft` |
| Ingest.CleanedUp | setup_kdb.py:42-54 | cleanup succeeds exactly when the extracted file exists and, if a copy was made, the staged copy is another existing file; it removes exactly those, and no file's contents change |
| Ingest.Prepared | setup_kdb.py:62-79 | once staging succeeds, the extracted file exists (its contents are stated by PreparedContents) |
| IngestFacts.PreparedContents | setup_kdb.py:62-79 | staging succeeds exactly when the source exists, differs from the staging target when there is one, and decompresses; then the extracted file holds the decompressed source and any staged copy holds the source's bytes |
| IngestFacts.ExtractedNotStaged | setup_kdb.py:65-76 | the extracted path is never the staged copy's path |
| IngestFacts.TransformedArchive | setup_kdb.py:77-87 | what the first message loads is the decompressed source archive |
| IngestFacts.IngestedAppends | setup_kdb.py:87-93 | an ingest that returns normally writes exactly one partition: the transformed table under the file's date |
| IngestFacts.IngestsArchive | setup_kdb.py:61-93 | an ingest that returns normally wrote one partition holding the source archive decompressed, parsed and transformed |
| Ingest.FileEffect | setup_kdb.py:80-82 | the `return False` for a missing extracted file is never taken |
| Ingest.AfterStaging | setup_kdb.py:80-82 | after staging, the call returns False exactly when the extracted file is missing |
| Ingest.Delivered | setup_kdb.py:87-93 | once the date is known, the call never ends with the missing-extract `False` |
| Ingest.Stage | setup_kdb.py:62-79 | copy (when staging) and decompression change the files as Prepared says, and `copied_original` is true when staging succeeded with a temporary directory |
| Ingest.CleanUp | setup_kdb.py:42-54 | `clean_up_files` changes the files as CleanedUp says |
| Ingest.SendScript | setup_kdb.py:87-91 | the five `q(...)` calls change q and the trace as Drive says |
| Ingest.ProcessFile | setup_kdb.py:61-93 | `process_book_file` / `process_trade_file`: exit, files, q's state and the trace are those of FileEffect |
| Ingest.LoadAndClean | setup_kdb.py:80-93 | the steps after decompression act as AfterStaging says |
| Ingest.SendAndClean | setup_kdb.py:87-93 | the messages then the cleanup act as Delivered says |
| IngestFacts.Processed | setup_kdb.py:88-90 | the transform of a loaded table is the Relation pipeline for the kind's guard and leading columns |
| IngestFacts.ScriptOutcome | setup_kdb.py:87-91 | on an open connection the five messages succeed exactly when the file is there, parses and survives the transform; the kind's table is then the transformed table, and exactly one partition of it is written under the date by `sym`; otherwise nothing is written; the table's earlier binding plays no part |
| IngestFacts.SecondMessage | setup_kdb.py:88 | from the update on, the messages finish with the processed table |
| IngestFacts.ThirdMessage | setup_kdb.py:89 | from the deletes on, the messages finish with the filtered table |
| IngestFacts.FourthMessage | setup_kdb.py:90 | from `xcols` on, the messages finish with the reordered table |
| IngestFacts.FifthMessage | setup_kdb.py:91 | `.Q.dpft` writes the table as one partition when it has `sym` |
| IngestFacts.PathShapes | setup_kdb.py:62-76 | the source, staged and extracted paths of a directory entry are a directory text followed by the name (without ".gz" for the extracted path) |
| IngestFacts.ExtractedNotSource | setup_kdb.py:76 | for an entry whose name contains ".gz", the extracted file is never the source |
| IngestFacts.EffectFiles | setup_kdb.py:91-93 | the files afterwards are those the staging left, or those cleanup left, and cleanup runs only after every message went through |
| IngestFacts.PreparedUntouched | setup_kdb.py:62-79 | staging changes no file but the extracted file and a distinct staged copy, and a temporary copy whose target is the source itself fails |
| IngestFacts.Untouched | setup_kdb.py:42-54 | a file that is neither the extracted file nor a distinct staged copy is never changed or removed |
| IngestFacts.SourceSurvives | setup_kdb.py:42-54 | the source archive of an entry whose name contains ".gz" survives unchanged, whatever happens |
| IngestFacts.InPlaceWithoutGz | setup_kdb.py:73-79 | without ".gz" in the path and without staging, the archive is truncated and decompressed onto itself, and a normal return deletes it |
| IngestFacts.IngestedOutcome | setup_kdb.py:61-93 | a file is ingested exactly when staging, the date, all five messages and cleanup succeed; then one partition of the transformed table is written under the date, and the extracted file and staged copy are gone |
| IngestFacts.AppendsOne | setup_kdb.py:91 | an ingested file adds exactly one partition, under its file name's date, to the kind's root, by `sym` |
| IngestFacts.FailureKeepsExtract | setup_kdb.py:84 | a bad date raises before any message, and a failing message ends the call; in both cases cleanup never runs, the extracted file stays and nothing is written |
| IngestFacts.ExtractedBase | setup_kdb.py:84 | the basename of the extracted path is the entry name without ".gz" |
| IngestFacts.SelectedDate | setup_kdb.py:84 | for a selected file of a digit month, the date string is its first eight digits with '.' inserted after the fourth and sixth, and it raises exactly when they are not a valid date |
| Shard.Stripped | setup_kdb.py:155 | `month.replace("0", "")` contains no '0' |
| Shard.Port | setup_kdb.py:155 | the port exists exactly when the month without its zeros is a non-empty digit string; it is then the base (31000 or 40000) plus that string's value, and otherwise `int()` raises ValueError on it |
| Shard.PortAboveBase | setup_kdb.py:155 | a digit month that is not all zeros gets a port above its base |
| Shard.PortCollision | setup_kdb.py:201 | January and October 2018 get the same port, base + 2181, for either kind |
| Shard.ZeroMonth | setup_kdb.py:155 | a month of zeros has no port |
| Shard.IngestAll | setup_kdb.py:177-178 | a batch attempts at most every file, all of them when none raises, and stops after the first that raises |
| Shard.StopsAtFailure | setup_kdb.py:177-178 | a batch that raises stops at the file that raised: running only the files up to that one gives the same outcome |
| Shard.IngestAllWalk | setup_kdb.py:177-178 | the month's batch is the generic one-after-the-other walk whose step is one file's ingest |
| Shard.WalkStops | setup_kdb.py:177-178 | whatever each file does, a walk that raised is the walk of its files up to the one that raised |
| Shard.IngestFiles | setup_kdb.py:177-178 | the `for` loop over the sorted files acts as IngestAll: the files one after the other, the first exception ending the month |
| Shard.IngestNext | setup_kdb.py:178 | one turn of the loop: either the batch ends with this file's exception, or it continues from the new state |
| Shard.TryMonth | setup_kdb.py:158-178 | the `try` block as TryTrace: connect, list, return on an empty selection, ingest the sorted selection |
| Shard.TryOpens | setup_kdb.py:162-164 | a listening process makes the opening the first event; a refused connection ends the `try` block with nothing sent and nothing changed |
| Shard.Finally | setup_kdb.py:180-186 | the `finally` block as Closing: books send "\\" then close, trades close then release the process handle |
| Shard.ProcessMonth | setup_kdb.py:144-186 | `process_month_books` / `process_month_trades` end in the state MonthRun gives, with the files met in sorted order and the connection closed |
| Shard.BatchPartitions | setup_kdb.py:177-178 | a batch that raises nothing writes one partition per file, in the files' order, each under its file's date |
| Shard.MonthTeardown | setup_kdb.py:180-186 | once the port is known, every exit runs the teardown: an opened month ends with the kind's two teardown calls; an unopened books month raises NotConnected from the "\\"; an unopened trades month keeps the refusal and releases the handle |
| Shard.EarlyReturn | setup_kdb.py:171-173 | a month returns False exactly when it connected, its directory exists and nothing matches; it then ingests nothing, leaves the files alone and still tears down |
| Shard.MonthPartitions | setup_kdb.py:170-178 | a month that ends normally wrote one partition per matching file, in ascending file-name order, each under its date |
| Shard.FileDatesAt | setup_kdb.py:84 | the k-th partition date is the date of the k-th file |
| ExampleExtract.TradeQueries | example/example_extract.py:46-52 | the example sends five messages |
| ExampleExtract.ProcessTradeFile | example/example_extract.py:28-66 | `process_trade_file` acts as TradeEffect: with any temporary directory it raises AttributeError at line 33 and changes nothing; otherwise it raises only for a missing archive, a bad date or a closed connection, before the copy into `file.txt` |
| ExampleExtract.LoadAndCopy | example/example_extract.py:46-64 | the five messages, whose replies are never read, then the decompressed stream copied into `file.txt`, as Loaded says |
| ExampleExtract.TempDirRaises | example/example_extract.py:33 | any `temp_dir` string raises AttributeError before any copy, message or file write |
| ExampleExtract.ExtractedIsArchive | example/example_extract.py:43 | for a selected trade entry under a directory without backslashes, `replace("\\.gz", "")` changes nothing: the "extracted" path is the archive |
| ExampleExtract.NoBackslashGz | example/example_extract.py:43 | a path whose only possible backslash ends the directory part, followed by an entry name not starting with '.', contains no backslash-".gz" |
| ExampleExtract.RepliesUnread | example/example_extract.py:46-64 | with the archive present and a date, an open connection sends all five messages and the call ends as the copy into `file.txt` ends, whatever q answered; a closed connection raises before anything changes |
| ExampleExtract.ReordersTab | example/example_extract.py:51-52 | with a `tab` in q that `xcols` can reorder, the one partition written is `tab` reordered, whatever was loaded; without a `tab` the fifth message writes `tab_trade` as the first three messages left it |
| ExampleExtract.WritesTrimmed | example/example_extract.py:46-52 | without a `tab`, a file that loads and survives the transform is written as the trimmed table, not reordered |
| ExampleExtract.Trimmed | example/example_extract.py:47-49 | the trimmed table keeps `sym` and has none of the five helper columns |
| ExampleExtract.TrimmedThenReordered | example/example_extract.py:47-51 | the transform of setup_kdb.py is this one followed by `xcols` |
| ExampleExtract.FirstThree | example/example_extract.py:46-49 | the first three messages leave `tab` and the partitions alone, and leave `tab_trade` the loaded file trimmed when every step applies |
| ExampleExtract.LastTwo | example/example_extract.py:51-52 | the fourth and fifth messages write `tab` reordered when it exists, and `tab_trade` as it stands otherwise |
| ExampleExtract.MonthPatternsRange | example/example_extract.py:71 | the list runs from 201705 to 201902, with 201712 followed by 201801 |
| ExampleExtract.MonthPatternsDigits | example/example_extract.py:71 | every month text is six ASCII digits |
| ExampleExtract.StopsIffTrades | example/example_extract.py:114-115 | the walk stops exactly when some reached month has trade files |
| ExampleExtract.ExaminedArePassing | example/example_extract.py:101-106 | a month is examined only when one of its lists is non-empty, and when the walk does not stop, every such month is examined, so a month is skipped only when both lists are empty |
| ExampleExtract.RunConcat | example/example_extract.py:86-92 | walking two runs of months is walking the first, then the second unless the first stopped |
| ExampleExtract.ExamineMonth | example/example_extract.py:94-115 | one month passes the `continue` exactly when one of its lists is non-empty, stops `main` exactly when it has trade files, and changes nothing else |
| ExampleExtract.ExtractMonths | example/example_extract.py:92-115 | the inner loop walks the months of one directory as Run says |
| ExampleExtract.ExtractDir | example/example_extract.py:86-92 | one directory is skipped when missing and walked otherwise |
| ExampleExtract.ExtractDirs | example/example_extract.py:86-115 | the outer loop walks every existing directory as Run says, without changing files or q |
| ExampleExtract.ExtractMain | example/example_extract.py:69-127 | `main` reaches `q.close()` exactly when no reached month has trade files; otherwise it raises AttributeError with the connection left open |
| ExampleExtract.Connect | example/example_extract.py:19-21 | the load-time connection opens on port 40000 or raises |
| ExampleExtract.ExtractScript | example/example_extract.py:19-21 | the whole script: a refused connection ends it, otherwise the trace is the open followed by a close exactly when no trade file is reached |

## Left out

- Logging (every `logging.*` call, `logger_init`, the queue and file handlers) is not modelled, because it does not affect the data. The `os.path.isfile` checks after removals only log, so they are left out too.
- `main` of setup_kdb.py is not modelled: it starts one `multiprocessing.Process` per month and joins them, and that is concurrency. The model covers the per-month functions those processes run.
- `os.popen` and `time.sleep` are not modelled: spawning q is process I/O. Whether the spawned process listens is the parameter `listening`.
- The `QConnection` handshake and protocol version are not modelled. Only the open flag and the calls made on the connection are.
- gzip decompression (the RFC 1952 format) is the function parameter `Env.gunzip`. An empty archive reads as no data.
- A corrupt archive leaves its target as an empty file, not as the partial output Python would have written.
- q's CSV parse by type string is the function parameter `Env.parse`.
- `(1000*TimeMM) + Date + \`second$s` is a symbolic `Time` cell. q's temporal type coercions are not modelled. The seconds term is modelled exactly.
- `.Q.dpft`'s enumeration, sort and parted attribute are not modelled, nor whether it appends or overwrites. A call is recorded as one `Append` with the table as it stood.
- Prices and book levels are `real` or `int` values, because only comparisons with 0 matter. Of q's nulls, only the float null is modelled.
- `pd.date_range(...)` of example/example_extract.py:71 is written out as the month list it yields. `ExampleExtract.MonthPatterns` computes it from the month index, and `ExampleExtract.MonthPatternsRange` and `ExampleExtract.MonthPatternsDigits` state what it holds; pandas is not modelled.
- The commented-out verification block (setup_kdb.py:130-141) is left out.
- The unused `add_check` parameter is left out.
- Windows paths: `os.path.join` and `os.path.basename` are modelled only for second components that are directory entries. An entry has no separator, no drive and no ':'.
- example/example_extract.py:111 sorts the book list, which nothing then reads. Since that sort has no effect, it is not modelled.
- The one-character message "\\" (`q('\\')`) is treated by q as a no-op on its tables. Stopping the q process is not modelled, because the connection is closed next anyway.
- Shard.Port: `int()` is modelled for ASCII digit strings only. Python's `int()` also accepts surrounding whitespace, a sign, underscores and non-ASCII digits, none of which can occur in a `%Y%m` month.
- Dates.Strptime: only ASCII digits are accepted. CPython's `\d` also accepts other Unicode decimal digits, which selected file names cannot contain, since the pattern's `[0-9]` and the digit month rule them out.
- Dates.Format: `%Y` is zero-padded to four digits. Below year 1000 this depends on the platform's C library.
- Storage.CopyFile: the file system is a flat map from path text to bytes. It has no directories, so copying into a directory that does not exist succeeds here where Python raises. `EXTRACT_DIR` (setup_kdb.py:17) is such a directory: setup_kdb.py never creates it. Two spellings of one file are two paths, so `SameFileError` is raised only for identical path text.
- Selection.Select: its contract states which entries are kept, not their multiplicity. Listing entries are distinct, and the order is fixed by the sort that follows.
