# Metaculus question and comment processing, modelled in Dafny

This project models the data-processing core of `cafe`, a forecasting toolkit that works on
Metaculus questions and their comments:

- **Two pipelines.**
  - The *forecast* pipeline is `cafe/forecast/processing/metaculus.py` with its helper `cafe/forecast/processing/helpers.py`.
  - The *sources* pipeline is `cafe/sources/processing/metaculus.py` with its helper `cafe/sources/processing/helpers.py`.
  - Each pipeline loads question lists and comment files, filters questions, links every comment to a snapshot of the question's community-forecast history, and extracts per-question metadata for export.
- **The local JSON sources** of `cafe/forecast/source_local.py`. They list comments of a question, look up a comment or a question by id, and parse items into records with defaults.
- **Two small stores.**
  - `InMemoryContext` (`cafe/context/memory.py`) is a key/value map.
  - `ExperimentTracker` (`cafe/experiments/experiment_tracker.py`) is an append-only log of runs.

Module layout:

| file | module | models |
|---|---|---|
| `py.dfy` | `Py` | The Python values the code handles: JSON values plus datetimes. Python exceptions become `Result`. Models `dict.get`, `[]`, `in`, `len`, truthiness, `str()` and `int()`, and `<` on numbers, strings, datetimes and (lexicographically) lists. |
| `filtering.dfy` | `Filtering` | The `for`/`continue`/`append` filter loop shared by all four filters, and its properties. |
| `records.dfy` | `Records` | The `Question` and `Comment` records (`cafe/forecast/question.py`, `cafe/forecast/comment.py`). |
| `alignment.dfy` | `Alignment` | What both `link_comments_to_forecasts` share: the loop over questions, history resolution, snapshot selection, comment times, and the specification of attaching comments at their slots. |
| `question_data.dfy` | `QuestionData` | `load_questions`, `extract_question_metadata` and the output value of `export_time_series_with_comments`. These three are the same in both pipelines. |
| `forecast_helpers.dfy` | `ForecastHelpers` | `filter_questions_by_metadata` over question records. |
| `sources_helpers.dfy` | `SourcesHelpers` | `filter_questions_by_metadata` over question dicts. |
| `forecast_metaculus.dfy` | `ForecastMetaculus` | The forecast pipeline: `load_comments`, `filter_questions` as written and corrected, and bisect-based linking. |
| `sources_metaculus.dfy` | `SourcesMetaculus` | The sources pipeline: the merging `load_comments`, `filter_questions` with `published_at` bounds, and day-based linking. |
| `source_local.dfy` | `SourceLocal` | `LocalForecastCommentSource` and `LocalForecastSource` over the already-parsed JSON list. |
| `memory.dfy` | `Memory` | The `InMemoryContext` class. |
| `experiment_tracker.dfy` | `Experiments` | The `ExperimentTracker` class. |

How the model represents the source:

- **Loops become methods.** Each source loop is a `method` with a `while` loop. It is proved equal to a specification function, and the function's properties are proved as lemmas.
- **Filter loops** are specified by `Filtering.Filter`.
- **The per-question link loops** are specified by `Alignment.LinkAll`.
- **The comment-attach loops** are specified by `Alignment.Attached`, which appends to the snapshot entry named by each comment's slot.
- **Stateful objects are classes.** Each has a `modifies` clause on its updating method and a `reads` clause on its query function.

Python exceptions are modelled as the `Err` half of `Result`, one `Error` kind per exception class:

| exception | raised by |
|---|---|
| `AttributeError` | `.get` or attribute access on a value without it |
| `TypeError` | `<` between values of different kinds, or of a kind with no order (None, dicts), and `len`/`in` on unsuitable values |
| `KeyError` | a missing `c["created_at"]` |
| `ValueError` | `int()` failures and "not found" lookups |
| `FileNotFoundError` | a path that is neither a file nor a directory |

An operation succeeds exactly when the Python code returns, and the model proves which exception it raises otherwise. The exceptions listed under "## Left out" (a non-dict question, a naive datetime compared with an aware one) are the only ones outside this.

## Model

| member | source | states |
|---|---|---|
| Py.IntStringRoundTrip | cafe/forecast/source_local.py:28 | For every integer, `int(str(n)) == n`. An id stored as a decimal string and the same id stored as a number compare equal after `int()`. |
| Py.IntStringInjective | cafe/forecast/source_local.py:83 | Two integers have the same decimal string exactly when they are equal. So comparing `str()` of integer ids is integer equality. |
| Py.StrOfIntMatchesDecimal | cafe/forecast/source_local.py:21 | `str()` and `int()` give the same result on an integer as on its decimal string. |
| Filtering.FilterIsSubsequence | cafe/sources/processing/helpers.py:27-58 | A filter loop that finishes returns an order-preserving subsequence of its input. |
| Filtering.FilterMembers | cafe/forecast/processing/helpers.py:28-43 | A finished filter keeps every element whose guards all pass, and keeps only such elements. |
| Filtering.FilterOkIff | cafe/sources/processing/helpers.py:27-58 | The filter loop finishes exactly when no element's guards raise. |
| Filtering.FilterFirstError | cafe/sources/processing/helpers.py:27-58 | A filter loop that raises raises the exception of the first element whose guards raise. Every element before it was decided without raising. |
| Filtering.FilterAllPass | cafe/forecast/processing/helpers.py:28-43 | When every element passes, the result is the input unchanged. |
| Filtering.FilterThen | cafe/sources/processing/metaculus.py:95-127 | Running the helper filter over the output of the direct loop finishes exactly when one pass with both sets of guards does. It then gives the same list. |
| Filtering.FilterMapped | cafe/forecast/processing/metaculus.py:82-90 | Filtering parsed records raises exactly when filtering the underlying dicts with the same guard does, with the same exception. Otherwise the kept records are the records of the kept dicts. |
| Alignment.LinkAllOk | cafe/forecast/processing/metaculus.py:114-150 | The result is produced exactly when no question's series raises. |
| Alignment.LinkAllFirstError | cafe/forecast/processing/metaculus.py:114-150 | A link that raises raises the exception of the first question whose series raises. |
| Alignment.LinkAllKeys | cafe/forecast/processing/metaculus.py:114-150 | The result's keys are exactly `str(q.get("id"))` of the input questions. |
| Alignment.LinkAllLastWins | cafe/forecast/processing/metaculus.py:149 | Under each id lies the series of the last question with that id. |
| Alignment.ResolveHistory | cafe/forecast/processing/metaculus.py:118-129 | History resolution covers three cases. A `community_prediction.history` list is used. When that history is None, the nested `question.aggregations.recency_weighted.history` is used. Anything else that is not a list becomes `[]`. A non-dict level raises AttributeError. |
| Alignment.HasEndTime | cafe/forecast/processing/metaculus.py:131-140 | A dict snapshot is kept exactly when it has a non-null `end_time`. A list or string snapshot is dropped or raises. |
| Alignment.SnapshotSeries | cafe/forecast/processing/metaculus.py:131-140 | The series has one entry per snapshot with a non-null `end_time`, in source order. Each entry has `timestamp == end_time`, the snapshot as `forecast`, and no comments. `forecast_times[i]` is the timestamp of entry `i`. |
| Alignment.CommentList | cafe/forecast/processing/metaculus.py:142-144 | The comment loop runs over a list, an empty dict or an empty string. Any other value raises TypeError: it is not iterable, or its items are strings that `c["created_at"]` cannot index. |
| Alignment.ParseTime | cafe/forecast/processing/metaculus.py:94-99 | A number is its own time. A string is parsed, and fails exactly when the parser rejects it. Other values raise. |
| Alignment.CreatedTime | cafe/forecast/processing/metaculus.py:144 | `c["created_at"]` raises TypeError for a non-dict and KeyError when the key is missing. Otherwise the result is the parsed time. |
| Alignment.MapResult | cafe/forecast/processing/metaculus.py:143-146 | Slots are computed for every comment in order, or the first comment whose slot raises stops the loop. |
| Alignment.AttachStep | cafe/forecast/processing/metaculus.py:147-148 | One more comment is appended to the entry at its slot, or dropped when the slot is -1. No other entry changes. |
| Alignment.BucketIsSubsequence | cafe/forecast/processing/metaculus.py:142-149 | Each entry's comments keep input order. |
| Alignment.BucketMembers | cafe/forecast/processing/metaculus.py:142-149 | An entry holds exactly the comments whose slot is that entry. So each comment lands in at most one entry. |
| Alignment.AttachedTotal | cafe/forecast/processing/metaculus.py:142-149 | Attaching adds exactly the number of comments with a slot ≥ 0. That is at most `len(comments_by_qid.get(qid, []))`. |
| Alignment.NoCommentsNoChange | cafe/forecast/processing/metaculus.py:142-149 | A question without comments keeps its series with all comment lists empty. |
| QuestionData.LoadQuestionsUnwraps | cafe/forecast/processing/metaculus.py:15-17 | `load_questions` returns `obj["data"]` for any dict with `data`, whatever `data` holds. Every other value (a list, a dict without `data`, a scalar) is returned unchanged. |
| QuestionData.ExtractQuestionMetadata | cafe/forecast/processing/metaculus.py:153-180 | Extraction raises AttributeError exactly when `q["question"]` exists and is not a dict. Otherwise the keys are exactly the 23 metadata fields. |
| QuestionData.MetadataReadsNestedOrFlat | cafe/forecast/processing/metaculus.py:155-180 | Fields are read from `q["question"]` when present, else from `q`. An absent field is None. `created_at` falls back to `created_time` when falsy. |
| QuestionData.MetadataOfNothing | cafe/forecast/processing/metaculus.py:199 | A qid with no matching question gets the metadata of `{}`: every field None. |
| QuestionData.QuestionIndex | cafe/forecast/processing/metaculus.py:196 | The id-to-question mapping is built exactly when every question is a dict. Otherwise `q.get` raises AttributeError. |
| QuestionData.QuestionIndexHas | cafe/forecast/processing/metaculus.py:196 | An id is a key exactly when some question has it. |
| QuestionData.QuestionIndexKeys | cafe/forecast/processing/metaculus.py:196 | The keys are exactly the questions' `str(id)`s. |
| QuestionData.QuestionIndexAt | cafe/forecast/processing/metaculus.py:196 | The last question with an id is the one stored under it. |
| QuestionData.QuestionIndexLastWins | cafe/forecast/processing/metaculus.py:196 | The last-question-wins property holds for every id at once. |
| QuestionData.TotalLength | cafe/forecast/processing/metaculus.py:193 | The summing loop computes the total length of all series. |
| QuestionData.ExportEach | cafe/forecast/processing/metaculus.py:197-200 | The output has exactly the keys of `series_by_qid`, each holding its metadata and its series unchanged. It raises exactly when some qid's metadata raises, with that exception. |
| QuestionData.ExportTimeSeries | cafe/forecast/processing/metaculus.py:183-204 | The exported value has `record_count` equal to the sum of the series lengths. It records the script and `params or {}`. Its question keys are exactly those of `series_by_qid`, each holding the metadata of the question with that id (or of `{}`) and its series. It raises AttributeError exactly when a question is not a dict or a needed `question` field is not a dict. |
| ForecastMetaculus.DirFileComments | cafe/forecast/processing/metaculus.py:33-38 | A directory file contributes `data` if present, else `comments_by_question`, else the whole object. |
| ForecastMetaculus.LoadComments | cafe/forecast/processing/metaculus.py:20-41 | A file gives its `comments_by_question` value or the whole object. A directory gives a dict keyed exactly by the files' stems, where the last file with a stem decides its value. A path that is neither raises FileNotFoundError. |
| ForecastMetaculus.DirectKeep | cafe/forecast/processing/metaculus.py:71-79 | A question passes the direct loop exactly when three conditions hold: it has the given status, it contains the tag in `tags or []`, and its `community_prediction.num_forecasters` is present and ≥ the minimum. A falsy argument imposes nothing. Only TypeError or AttributeError can be raised. |
| ForecastMetaculus.DirectFilter | cafe/forecast/processing/metaculus.py:70-80 | The loop computes the direct-stage filter. |
| ForecastMetaculus.ParseBound | cafe/forecast/processing/metaculus.py:65-68 | A falsy date bound is None. A given bound is parsed, or raises ValueError. |
| ForecastMetaculus.HelperOnDictKeep | cafe/forecast/processing/helpers.py:30-40 | On a dict as written, the record helper raises AttributeError exactly when a date bound, `has_resolution_criteria` or a tag is given. Otherwise only the custom predicate decides. |
| ForecastMetaculus.HelperOnDicts | cafe/forecast/processing/helpers.py:28-43 | The helper's loop, applied to dicts as the source does. |
| ForecastMetaculus.FilterQuestionsAsWritten | cafe/forecast/processing/metaculus.py:47-91 | The as-written filter: bound parsing, then the direct loop, then the record helper applied to the dicts. |
| ForecastMetaculus.AsWrittenRaisesOnMetadata | cafe/forecast/processing/metaculus.py:82-90 | As written, the call raises AttributeError whenever some question survives the direct loop and a date bound, `has_resolution_criteria` or a tag is given. |
| ForecastMetaculus.TaggedPassesDirect | cafe/forecast/processing/metaculus.py:74 | A question tagged `ai` passes the direct loop of a tag filter `ai`. |
| ForecastMetaculus.TagFilterCounterexample | cafe/forecast/processing/metaculus.py:82-90 | As written, filtering `[{"tags": ["ai"]}]` by tag `ai` raises AttributeError. |
| ForecastMetaculus.View | cafe/forecast/source_local.py:87-101 | The record built from a question dict keeps the dict as `raw`. |
| ForecastMetaculus.RawsOfViews | cafe/forecast/source_local.py:100 | The dicts are recovered from their records. |
| ForecastMetaculus.FilterQuestions | cafe/forecast/processing/metaculus.py:47-91 | The corrected filter runs the direct loop, then the record helper on records built from the kept dicts, and returns the dicts. |
| ForecastMetaculus.FilterQuestionsKeepsExactly | cafe/forecast/processing/metaculus.py:47-91 | The corrected result is an order-preserving subsequence. A question is kept exactly when it meets the direct conditions and its record meets the helper's conditions. |
| ForecastMetaculus.TagFilterIntended | cafe/forecast/processing/metaculus.py:82-90 | Corrected, filtering `[{"tags": ["ai"]}]` by tag `ai` keeps that question. |
| ForecastMetaculus.BisectFrom | cafe/forecast/processing/metaculus.py:146 | `bisect_right` between `lo` and `hi` returns a position in that range. |
| ForecastMetaculus.BisectRight | cafe/forecast/processing/metaculus.py:146 | `bisect_right` returns a position from 0 to `len(times)`. |
| ForecastMetaculus.BisectBrackets | cafe/forecast/processing/metaculus.py:146 | Suppose the search range is bracketed: everything before `lo` is ≤ x and the element at `hi` is > x. Then the binary search finishes at a position with the same two properties. |
| ForecastMetaculus.BisectRightSorted | cafe/forecast/processing/metaculus.py:146 | On ascending times, `bisect_right` is the number of times ≤ x. Every time before it is ≤ x, and every time from it on is > x. |
| ForecastMetaculus.CommentSlot | cafe/forecast/processing/metaculus.py:144-146 | A comment's slot `bisect_right(...) - 1` lies between -1 and the last index. |
| ForecastMetaculus.CommentGoesToLatestPreceding | cafe/forecast/processing/metaculus.py:143-148 | On ascending times, a comment goes to the latest snapshot not after it. It is dropped (slot -1) exactly when every snapshot is after it. |
| ForecastMetaculus.LinkQuestion | cafe/forecast/processing/metaculus.py:115-149 | The loop body builds the question's series from the resolved history, the snapshots with `end_time`, and each comment attached at its bisect slot. `comments_by_qid.get` on a value that is not a dict raises AttributeError. |
| ForecastMetaculus.LinkCommentsToForecasts | cafe/forecast/processing/metaculus.py:102-150 | The result is the per-question loop of `Alignment.LinkAll`, whose keys, last-wins and error properties are proved there. `comments_by_qid` is any value `load_comments` can return, a non-dict included. |
| ForecastMetaculus.NonDictCommentsRaise | cafe/forecast/processing/metaculus.py:118-142 | When `comments_by_qid` is not a dict, a question whose history resolves raises AttributeError at `comments_by_qid.get(qid, [])`. |
| ForecastMetaculus.FlatListFileRaisesAtLink | cafe/forecast/processing/metaculus.py:20-27 | A comments file that is a flat JSON list loads as that list, and linking a question against it then raises AttributeError at `comments_by_qid.get` (line 142). |
| SourcesMetaculus.LoadFile | cafe/sources/processing/metaculus.py:27-36 | A single file gives its `comments_by_question` entries, or else all its entries. A non-dict gives nothing. A `comments_by_question` that is not a dict raises AttributeError. |
| SourcesMetaculus.Extend | cafe/sources/processing/metaculus.py:50 | `setdefault(qid, []).extend(items)` appends to the list under the qid and leaves other keys alone. It raises AttributeError when a non-list is already stored there. |
| SourcesMetaculus.FileFlatOk | cafe/sources/processing/metaculus.py:54-65 | Filing a flat `data` list finishes exactly when every comment is a dict and every key it is filed under holds a list. |
| SourcesMetaculus.FiledUnderWitness | cafe/sources/processing/metaculus.py:58-65 | Something is filed under a key only if some comment's first truthy `question_id`/`questionId`/`qid` gives that key. |
| SourcesMetaculus.FileFlatContents | cafe/sources/processing/metaculus.py:54-65 | After filing, each key filed under holds its earlier comments followed by the comments filed under it, in order. Keys with nothing filed are unchanged. No other keys appear. |
| SourcesMetaculus.FileFlatKey | cafe/sources/processing/metaculus.py:54-65 | The same three facts for one key at a time. |
| SourcesMetaculus.FileFlatData | cafe/sources/processing/metaculus.py:56-65 | The loop over a flat `data` list computes the filing specification. |
| SourcesMetaculus.MergeFileOverwrites | cafe/sources/processing/metaculus.py:51-53 | `comments_by_question` entries overwrite earlier ones rather than merging. In a bare dict, only entries whose value is a list of dicts are kept, overwriting. |
| SourcesMetaculus.MergeDirFile | cafe/sources/processing/metaculus.py:39-70 | The dispatch over one directory file computes its merge specification. |
| SourcesMetaculus.LoadComments | cafe/sources/processing/metaculus.py:20-73 | The result depends on the path. A file gives its entries. A directory gives its files merged in glob order. A path that is neither raises FileNotFoundError. |
| SourcesMetaculus.MergeQidFiles | cafe/sources/processing/metaculus.py:42-50 | A directory of `{metadata: {qid}, data: [...]}` files merges without error. Its keys are the files' qids, and each holds the concatenation of the `data` lists of that qid's files in order. |
| SourcesMetaculus.QidFileMerges | cafe/sources/processing/metaculus.py:42-50 | A qid-shaped file extends the list under its qid. |
| SourcesMetaculus.TwoFilesSameQid | cafe/sources/processing/metaculus.py:42-50 | Two files for the same qid merge into one list, the first file's comments followed by the second's. |
| SourcesMetaculus.DataForAbsent | cafe/sources/processing/metaculus.py:42-50 | A qid with no file has no comments. |
| SourcesMetaculus.UnpublishedPasses | cafe/sources/processing/metaculus.py:103-111 | A question without `published_at` passes both bounds. |
| SourcesMetaculus.PublishedOutsideDropped | cafe/sources/processing/metaculus.py:103-111 | A question published before `published_at__gt` is dropped. So is one published after `published_at__lt`. |
| SourcesMetaculus.ListPublishedComparedLexicographically | cafe/sources/processing/metaculus.py:104-107 | A list-valued `published_at` is compared with a list bound element by element, as Python does: `[1] < [2]`, so `{"published_at": [1]}` is dropped by `published_at__gt: [2]`. |
| SourcesMetaculus.DirectKeep | cafe/sources/processing/metaculus.py:96-118 | A question passes the direct loop exactly when it meets every condition: status, tag, top-level `num_forecasters` (default 0), `published_at` bounds, resolution criteria, `num_comments` (default 0) and the custom predicate. Only TypeError can be raised. |
| SourcesMetaculus.DirectFilter | cafe/sources/processing/metaculus.py:95-119 | The loop computes the direct-stage filter. |
| SourcesMetaculus.FilterQuestions | cafe/sources/processing/metaculus.py:81-128 | The filter is the direct loop followed by the dict helper. |
| SourcesMetaculus.FilterQuestionsKeepsExactly | cafe/sources/processing/metaculus.py:95-127 | The result is an order-preserving subsequence. A question is kept exactly when it passes both the direct loop and `filter_questions_by_metadata`. |
| SourcesMetaculus.MinCommentsChecksBoth | cafe/sources/processing/metaculus.py:115-127 | A kept question under `min_comments` has both `num_comments` ≥ min and `len(comments)` ≥ min. |
| SourcesMetaculus.StringTagsDropped | cafe/sources/processing/metaculus.py:99-127 | A question whose `tags` is the string `"ai-safety"` passes the direct tag test for `ai` by substring, but the helper drops it. |
| SourcesMetaculus.StringTagsStages | cafe/sources/processing/metaculus.py:99-127 | The two stages answer differently on that question. |
| SourcesMetaculus.DateOf | cafe/sources/processing/metaculus.py:175-182 | A snapshot has a date exactly when its `end_time` is a number. |
| SourcesMetaculus.FirstLater | cafe/sources/processing/metaculus.py:194-199 | The scan stops at the first dated snapshot whose day is later than the comment's. |
| SourcesMetaculus.LastDated | cafe/sources/processing/metaculus.py:194-199 | The last dated snapshot before the stop is the one chosen, or -1 when there is none. |
| SourcesMetaculus.ScanSlot | cafe/sources/processing/metaculus.py:194-199 | A chosen snapshot is dated and not after the comment's day. |
| SourcesMetaculus.DayScan | cafe/sources/processing/metaculus.py:194-199 | The scan loop with its early `break` computes that slot. |
| SourcesMetaculus.ScanSlotSorted | cafe/sources/processing/metaculus.py:192-201 | On ascending dates, every later dated snapshot is after the comment's day. The comment is dropped exactly when every dated snapshot is after it. |
| SourcesMetaculus.ScanStopsAtFirstLater | cafe/sources/processing/metaculus.py:198-199 | On unsorted dates the early `break` drops a comment that an earlier-dated later snapshot would have taken. |
| SourcesMetaculus.DaySlot | cafe/sources/processing/metaculus.py:191-199 | A comment's slot lies between -1 and the last index. |
| SourcesMetaculus.SameDayCommentAttached | cafe/sources/processing/metaculus.py:192-201 | A comment earlier on the same UTC day as a snapshot is attached to it, because days are compared, not instants. |
| SourcesMetaculus.UndatedGetsNothing | cafe/sources/processing/metaculus.py:175-201 | A snapshot without a date never receives a comment. |
| SourcesMetaculus.LinkQuestion | cafe/sources/processing/metaculus.py:154-202 | The loop body builds the question's series with each comment attached at its scanned slot. |
| SourcesMetaculus.LinkCommentsToForecasts | cafe/sources/processing/metaculus.py:139-203 | The result is the per-question loop of `Alignment.LinkAll`. |
| ForecastHelpers.MetadataKeep | cafe/forecast/processing/helpers.py:29-42 | A record passes exactly when every condition holds. Date bounds are inclusive and need a `created_at`. `bool(resolution_criteria)` must equal the flag. `min_comments` applies only to a record with `comments`. A tag must be in non-empty tags. The custom predicate must hold. Only TypeError can be raised. |
| ForecastHelpers.FilterByMetadata | cafe/forecast/processing/helpers.py:28-43 | The loop computes the record filter. |
| ForecastHelpers.FilteredMeetMetadata | cafe/forecast/processing/helpers.py:28-43 | The result is an order-preserving subsequence holding exactly the records that meet every condition. |
| ForecastHelpers.NoConstraintsKeepsAll | cafe/forecast/processing/helpers.py:28-43 | With no argument given, the input is returned unchanged. |
| ForecastHelpers.FilterRaisesOnlyTypeError | cafe/forecast/processing/helpers.py:36-38 | The record helper can raise only TypeError. |
| SourcesHelpers.MetadataKeep | cafe/sources/processing/helpers.py:28-57 | A dict passes exactly when every condition holds. Date bounds are inclusive and need a datetime `created_at`. `bool(resolution_criteria)` must equal the flag. `len(q.get("comments", []))` must be ≥ `min_comments`. A tag must be in a list `tags`. The custom predicate must hold. Only an unmeasurable `comments` raises, and only when no earlier guard skipped the question. |
| SourcesHelpers.FilterByMetadata | cafe/sources/processing/helpers.py:27-58 | The loop computes the dict filter. |
| SourcesHelpers.FilteredMeetMetadata | cafe/sources/processing/helpers.py:27-58 | The result is an order-preserving subsequence holding exactly the dicts that meet every condition. |
| SourcesHelpers.ZeroMinCommentsKeepsMeasurable | cafe/sources/processing/helpers.py:49 | `min_comments=0` keeps every question whose comments have a length. |
| SourcesHelpers.NoConstraintsKeepsAll | cafe/sources/processing/helpers.py:27-58 | With no argument given, the input is returned unchanged. |
| SourceLocal.ParseComment | cafe/forecast/source_local.py:32-67 | A parsed comment has `id == int(item["id"])` and keeps the item as `raw`. A missing or empty author becomes `{id: -1, username: "unknown"}`. A None or absent `on_post` becomes -1, else `int(on_post)`. A falsy `created_at` becomes the epoch, else it is parsed. `text` defaults to `""`. A non-dict raises AttributeError. |
| SourceLocal.MinimalCommentDefaults | cafe/forecast/source_local.py:33-51 | An item with only an id parses to a comment with every default. |
| SourceLocal.WellFormedCommentParses | cafe/forecast/source_local.py:32-67 | An item whose fields are well formed parses, with its id, author and text. |
| SourceLocal.ListedAreParsedMatches | cafe/forecast/source_local.py:18-22 | The listed comments are the parses of the matching items, in order. |
| SourceLocal.ListedCommentsMatch | cafe/forecast/source_local.py:18-22 | The matching items are exactly those with `str(on_post) == question_id`, in source order. |
| SourceLocal.ListTwoOfThree | cafe/forecast/source_local.py:18-22 | Of three items, two matching and one not, both matches are listed in order. |
| SourceLocal.GetComment | cafe/forecast/source_local.py:24-30 | The result is the first item with `int(id) == comment_id`, parsed. An earlier id that cannot be converted raises its exception. ValueError is raised when nothing matches. |
| SourceLocal.ParseDate | cafe/forecast/source_local.py:103-109 | A falsy or unparseable value is None. A non-empty string is parsed. |
| SourceLocal.ParseQuestion | cafe/forecast/source_local.py:87-101 | `id` is `str(item.get("id"))`. `title` defaults to `""`. Dates are parsed with `_parse_date`. Falsy or missing `tags` become `[]`. The item is kept as `raw`. A non-dict raises AttributeError. |
| SourceLocal.ListQuestions | cafe/forecast/source_local.py:74-77 | Every item is parsed in order. A non-dict item raises. |
| SourceLocal.GetQuestion | cafe/forecast/source_local.py:79-85 | The loop computes the first-match lookup. |
| SourceLocal.FindQuestionFirst | cafe/forecast/source_local.py:79-85 | The lookup returns the first item with `str(id)` equal to the id, parsed. A non-dict before it raises AttributeError. ValueError is raised when nothing matches. |
| SourceLocal.SampleCommentParses | tests/forecast/test_comment.py:9-24 | The test's sample comment parses, with its id, author `testuser` and text. |
| SourceLocal.LocalCommentSourceScenario | tests/forecast/test_comment.py:27-44 | Listing the comments of question "101" among the three samples gives two comments, the first with the sample text. |
| SourceLocal.GetCommentScenario | tests/forecast/test_comment.py:45-48 | Looking up comment 2 among the samples gives the comment with id 2 by `testuser`. |
| Memory.InMemoryContext.constructor | cafe/context/memory.py:6-7 | A new context stores nothing. |
| Memory.InMemoryContext.GetData | cafe/context/memory.py:9-10 | `get_data` returns the stored value, or None for a key never set. |
| Memory.InMemoryContext.SetData | cafe/context/memory.py:12-13 | After `set_data(k, v)`, `get_data(k)` is `v` and every other key answers as before. |
| Memory.SetGetScenario | cafe/context/memory.py:9-13 | A key reads None before it is set and `v` after it is set. A second set overwrites the first. Another key still reads None. |
| Experiments.ExperimentTracker.constructor | cafe/experiments/experiment_tracker.py:7-8 | A new tracker has no runs. |
| Experiments.ExperimentTracker.LogRun | cafe/experiments/experiment_tracker.py:10-28 | `log_run` grows the log by exactly one run and returns its id. The new run records model, parameters, metrics and notes as given, with notes defaulting to `""`. Earlier runs are unchanged and keep their order. |
| Experiments.ExperimentTracker.ListRuns | cafe/experiments/experiment_tracker.py:30-31 | The runs are returned in logging order. |
| Experiments.SingleRunScenario | tests/test_experiment_tracker.py:3-14 | One logged run is the only one listed, under the returned id, with model `test-model`. |
| Experiments.TwoRunsScenario | cafe/experiments/experiment_tracker.py:10-31 | Two runs are listed in logging order. A run logged without notes has `""`. |

## Left out

- **File and JSON I/O.**
  - Opening files, `json.load` and `json.dump` are outside the model.
  - Loaders take already-parsed values: a file's object, or a directory as a sequence of `(stem, object)` pairs.
  - `export_time_series_with_comments` is modelled as the value it writes.
- **Glob order** is unspecified in Python, so the directory sequence is arbitrary. Results are stated for any order.
- **Floating point.**
  - Numbers are integers.
  - `parse_time` and `datetime.fromisoformat` become a parameter `string -> Option<int>` giving epoch seconds.
  - `float(s)` on a numeric string is folded into that parameter.
- **`datetime.utcfromtimestamp`.**
  - Modelled as epoch seconds divided by 86400, the UTC day.
  - Its range limit (an OverflowError or OSError on huge values) is not modelled.
- **The environment part of `get_metadata`** is not modelled: clock, cwd, Python version and the git subprocess (cafe/sources/processing/metadata.py).
  - The export keeps only the script name, `params or {}` and `record_count`.
  - The script name is a parameter instead of `sys.argv[0]`.
  - cafe/forecast/processing/metadata.py, which the forecast pipeline imports, is not part of this model.
- **The missing `Callable` import.**
  - cafe/forecast/processing/metaculus.py:56 annotates with `Callable`, which that file does not import, so importing the module raises NameError.
  - The model assumes the import exists.
- **`custom_predicate`** is modelled as a total Boolean function. Exceptions it might raise are not modelled.
- **`str()` of a list, dict or datetime** is modelled as one fixed placeholder string per kind, so two such values are not told apart. Only `str()` of None, booleans, integers and strings matters to the keys compared here.
- **Deviations of the integer parser from Python's `int()`.**
  - `int()` on strings is modelled as an optional sign followed by ASCII digits.
  - Surrounding whitespace, `_` separators and non-ASCII digits are not accepted.
- **Dict key order** of the results and of `series_by_qid.items()` is not modelled. Maps are compared by contents.
- **Aliasing.**
  - `ListRuns` returns the run sequence as a value, so aliasing of the returned list with `self.runs` is not captured.
  - Neither is later in-place mutation of shared dicts or lists.
  - The filters and the attach loops return new values where Python mutates lists it built itself.
- Experiments.ExperimentTracker.LogRun: `uuid.uuid4()` and `datetime.now(UTC).isoformat()` are parameters supplied by the caller. The model does not state that run ids are unique.
- Experiments.SingleRunScenario: the test's float metrics `{"brier": 0.1}` are replaced by an empty map, because floats are not modelled.
- Alignment.LinkAll: question lists are typed as lists of dicts (`seq<Obj>`), so a non-dict element is not modelled: neither the AttributeError its `q.get(...)` raises nor a pass that leaves it untouched. In the link loops `str(q.get("id"))` raises on it (cafe/forecast/processing/metaculus.py:116, cafe/sources/processing/metaculus.py:155).
- ForecastMetaculus.DirectFilter: question lists are typed as lists of dicts (`seq<Obj>`), so a non-dict element is not modelled: neither the AttributeError its `q.get(...)` raises nor a pass that leaves it untouched. With no argument given, the loop keeps a non-dict element without calling `q.get` (cafe/forecast/processing/metaculus.py:71-80).
- ForecastMetaculus.FilterQuestionsAsWritten: question lists are typed as lists of dicts (`seq<Obj>`), so a non-dict element is not modelled: neither the AttributeError its `q.get(...)` raises nor a pass that leaves it untouched. Its direct loop and the record helper see only dicts (cafe/forecast/processing/metaculus.py:71-80).
- ForecastMetaculus.FilterQuestions: question lists are typed as lists of dicts (`seq<Obj>`), so a non-dict element is not modelled: neither the AttributeError its `q.get(...)` raises nor a pass that leaves it untouched. As for the as-written filter (cafe/forecast/processing/metaculus.py:71-80).
- ForecastMetaculus.LinkCommentsToForecasts: question lists are typed as lists of dicts (`seq<Obj>`), so a non-dict element is not modelled: neither the AttributeError its `q.get(...)` raises nor a pass that leaves it untouched. `str(q.get("id"))` raises on it (cafe/forecast/processing/metaculus.py:116).
- SourcesMetaculus.DirectFilter: question lists are typed as lists of dicts (`seq<Obj>`), so a non-dict element is not modelled: neither the AttributeError its `q.get(...)` raises nor a pass that leaves it untouched. With no argument given, the loop keeps a non-dict element without calling `q.get` (cafe/sources/processing/metaculus.py:96-118).
- SourcesMetaculus.FilterQuestions: question lists are typed as lists of dicts (`seq<Obj>`), so a non-dict element is not modelled: neither the AttributeError its `q.get(...)` raises nor a pass that leaves it untouched. The helper it calls runs `q.get("created_at")` on every element (cafe/sources/processing/helpers.py:29).
- SourcesMetaculus.LinkCommentsToForecasts: question lists are typed as lists of dicts (`seq<Obj>`), so a non-dict element is not modelled: neither the AttributeError its `q.get(...)` raises nor a pass that leaves it untouched. `str(q.get("id"))` raises on it (cafe/sources/processing/metaculus.py:155).
- SourcesHelpers.FilterByMetadata: question lists are typed as lists of dicts (`seq<Obj>`), so a non-dict element is not modelled: neither the AttributeError its `q.get(...)` raises nor a pass that leaves it untouched. `q.get("created_at")` raises AttributeError on it before any guard (cafe/sources/processing/helpers.py:29).
- Py.Less: datetimes are epoch seconds, so the TypeError Python raises when comparing a naive with a timezone-aware datetime is not modelled. Inside a list, two dicts are equal only when structurally equal, so `{"a": True}` and `{"a": 1}` differ where Python calls them equal.
- ForecastHelpers.MetadataKeep: the `created_after`/`created_before` bounds and `created_at` are epoch seconds. Python raises TypeError when `q.created_at < created_after` or `q.created_at > created_before` compares a naive datetime with an aware one (cafe/forecast/processing/helpers.py:30-32), and this is not modelled. `datetime.fromisoformat` of a `YYYY-MM-DD` bound is naive, while `_parse_date` of a timestamp with an offset is aware, so this affects ForecastMetaculus.FilterQuestions too.
- SourcesHelpers.MetadataKeep: the `created_after`/`created_before` bounds are epoch seconds; a naive `created_at` compared with an aware bound, which raises TypeError in Python (cafe/sources/processing/helpers.py:31-42), is not modelled.
- **Records.Question's optional `comments` attribute.**
  - The record helper's `hasattr(q, "comments")` is modelled by this optional field.
  - Records built by `_parse_question` never carry it.
- **Everything outside the processing core is not part of this model:** network sources, the HTTP front end, model adapters, evaluation metrics and configuration.

## Findings

| source | as written | input that shows it | evidently intended | confidence | as-written member | corrected member |
|---|---|---|---|---|---|---|
| cafe/forecast/processing/metaculus.py:82-90 | `filter_questions` passes the question dicts it just filtered to `filter_questions_by_metadata` (cafe/forecast/processing/helpers.py:30-38), which reads attributes such as `q.tags`. On a dict this raises AttributeError whenever a date bound, `has_resolution_criteria` or a tag is given and some question survived the direct loop. | `filter_questions([{"tags": ["ai"]}], tag="ai")` | The helper is applied to question records built from the dicts, as `_parse_question` builds them. The dicts whose records pass are returned. | not executed | ForecastMetaculus.TagFilterCounterexample | ForecastMetaculus.FilterQuestionsKeepsExactly |
