# auto-bookkeeping, modelled in Dafny

auto-bookkeeping turns the bill exports of Alipay (支付宝) and WeChat Pay (微信支付)
into one list of bookkeeping rows and fills in each row's type (类型). The Python
side cuts the table out of each export, parses the rows into a fixed set of
columns, merges and sorts the two sources by time, and classifies the rows without
a type. It classifies by looking up the nearest already-classified rows in a vector
index and taking a thresholded neighbour vote. It also extracts time, account and
amount features and computes statistics per category and per month. The TypeScript
side formats and merges the same exports, learns "merchant|product" keywords from a
classified dataset, and fills types from user keywords and learned keywords.

The model has one Dafny module per component. Pure code is written as functions and
lemmas. Loops are written as methods with loop invariants, each proved against a
specification function. Objects whose fields change become classes:

- the vector database wrapper, in three copies;
- the vector collection it owns;
- the bill row objects that the preprocessors update in place.

Calls into code that is not part of this model are parameters of the operations
that use them:

- the ChromaDB query, which gives the list of hits;
- the CSV and Excel parsers;
- `pandas.to_datetime` and `pandas.to_numeric`;
- `new Date`;
- reading files.

| module | file | models |
|---|---|---|
| `Common` | common.dfy | Option/Result, the Python and JavaScript whitespace classes, substring search, ASCII lower-casing, character removal |
| `BillRows` | bill_rows.dfy | timestamps, month labels, the eight-column bookkeeping row, `reindex` |
| `TextSplit` | text_split.dfy | `str.split()`, `" ".join`, JavaScript `split(c)` and `split(/\r?\n/)` |
| `Sorting` | sorting.dfy | a stable sort by an integer key, `filter`, `map` |
| `Normalizer` | normalizer.dfy | the two `_preprocess_text` variants and the `encode` input lists |
| `Voting` | voting.dfy | the neighbour vote of `get_predicted_category` |
| `VectorIndex` | vector_index.dfy | the collection: ids, documents, metadata, the query result as neighbours, stats |
| `ModelsVectorDb` | models_vector_db.dfy | `src/python/models/vector_db.py` |
| `BackendVectorDb` | backend_vector_db.dfy | `src/backend/models/vector_db.py` |
| `UtilsVectorDb` | utils_vector_db.dfy | `src/python/utils/vector_db.py` |
| `Features` | features.dfy | `src/python/utils/extract_features.py` |
| `AiProcessor` | ai_processor.dfy | `src/backend/services/ai_processor.py` |
| `BillMerge` | py_merge.dfy | `file_parser.py` and `format_and_merge_bills.py` |
| `TsMerge` | ts_merge.dfy | the TypeScript merge, CSV export, upload formatting and `processTransactions` |
| `BillLines` | bill_lines.dfy | picking the bill table out of the export's lines |
| `PyFormatters` | py_formatters.dfy | the Python Alipay and WeChat row parsing and frames |
| `Helpers` | helpers.dfy | `src/backend/utils/helpers.py` |
| `Keywords` | keywords.dfy | `src/preprocessor/keywordsGenerator.ts` |
| `Preprocessor` | preprocessor.dfy | the two bill preprocessors |
| `TsFormatters` | ts_formatters.dfy | the TypeScript Alipay and WeChat formatters |

Some code in the source does not match its description. The model follows the code:

- `src/python/models/vector_db.py` clears the index before it loads a dataset. The
  backend and utils copies append to what is stored.
- `src/python/models/vector_db.py` unpacks the four amount features into two names,
  which raises on the first row that would be stored. The load swallows the error, so
  this copy never stores anything (see the findings at the end).
- `process_with_ai` says it accepts a DataFrame, but its emptiness test raises for
  every DataFrame, so the `/merge` route's call always fails.
- `keywordsGenerator` counts a key whose count is 0 as a new key.
- The Alipay formatter of `src/formatter/aliPayFormatter.ts` joins the kept lines
  with no separator.
- The extension check does not lower-case the allowed list.

## Model

| member | source | states |
|---|---|---|
| Voting.ArgMax | src/python/models/algorithm.py:20-21 | the first index that holds the largest similarity |
| Voting.KeptMembers | src/python/models/algorithm.py:28-30 | a category is kept iff some neighbour with that category has a similarity at or above the threshold |
| Voting.DistinctOneIffUnanimous | src/python/models/algorithm.py:33 | the kept categories have one distinct value iff they are all equal |
| Voting.GetPredictedCategory | src/python/models/algorithm.py:14-47 | the answer is the vote (`IsVote`): no neighbours gives None and 0.0; a best similarity below the threshold gives the best neighbour's category and similarity; a unanimous vote of the kept neighbours gives their category with the best similarity; otherwise the plurality winner with its vote share, strictly between 0 and 1; the category is always one of the neighbours' |
| Voting.IsVoteUnique | src/python/models/algorithm.py:14-47 | the vote has exactly one answer, category and confidence |
| Voting.Vote | src/python/models/algorithm.py:37-45 | over a vote that is not unanimous: the plurality winner, ties going to the first seen, with its share of the votes, strictly between 0 and 1 |
| Voting.CountVotes | src/python/models/algorithm.py:37-39 | the counter: each key once, in first-seen order, with its number of occurrences |
| Voting.FirstMaxKey | src/python/models/algorithm.py:41 | the position of the first key with the largest count |
| Voting.TallyWinner | src/python/models/algorithm.py:37-41 | the first key with the largest count is the plurality winner: no category occurs more often, and an equally frequent one is first seen no earlier |
| Voting.PluralityWinnerUnique | src/python/models/algorithm.py:41 | the vote has at most one winner |
| Voting.ShareBounds | src/python/models/algorithm.py:45 | a share of between 1 and n-1 votes out of n lies strictly between 0 and 1 |
| VectorIndex.DocumentText | src/python/models/vector_db.py:132 | the document is merchant, ':' and product, one character longer than the two |
| VectorIndex.DocumentTextRoundTrip | src/python/models/vector_db.py:132 | a merchant without ':' is the text before the first ':', and the product is everything after it |
| VectorIndex.RangeFresh | src/python/models/vector_db.py:135 | consecutive new ids are distinct from each other and from the stored ids |
| VectorIndex.AppendBatch | src/python/models/vector_db.py:137-143 | appending a batch keeps the ids distinct and each document matching its metadata |
| VectorIndex.Collection.Add | src/python/models/vector_db.py:139-143 | the records gain the zipped batch in order; the add-call count goes up by one |
| VectorIndex.ToNeighbours | src/python/models/vector_db.py:163-172 | one neighbour per hit, in hit order, with similarity 1 − distance and the hit's category |
| VectorIndex.NeighboursOrdered | src/python/models/vector_db.py:163-170 | hits in ascending distance give neighbours in descending similarity |
| VectorIndex.CategoryCountAppend | src/python/models/vector_db.py:237-242 | per-category counts add up over concatenated records |
| VectorIndex.CategoryCountPositive | src/python/models/vector_db.py:237-242 | a category's count is positive iff some stored record has it |
| VectorIndex.CollectionStats | src/python/models/vector_db.py:233-247 | the total and, for each stored category, its number of records |
| VectorIndex.AllCategories | src/python/models/vector_db.py:217-224 | each stored category exactly once, and nothing else |
| ModelsVectorDb.AdmittedClean | src/python/models/vector_db.py:104-110 | every admitted row has a non-empty category that is not excluded, and comes from the table |
| ModelsVectorDb.UnpackPair | src/python/models/vector_db.py:114-115 | unpacking into two names succeeds iff there are exactly two values |
| ModelsVectorDb.AmountFeaturesNeverUnpack | src/python/models/vector_db.py:114-115 | the four amount features never unpack into two names: the unpacking always raises ValueError |
| ModelsVectorDb.BuildBatch | src/python/models/vector_db.py:101-115 | the row loop as written raises ValueError iff some row is admitted, and otherwise builds nothing |
| ModelsVectorDb.LoadFailsOnAdmittedRow | src/python/models/vector_db.py:86-94 | one admitted row: the intended load stores it, the load as written fails before any slice goes through |
| ModelsVectorDb.BuildBatchIntended | src/python/models/vector_db.py:96-135 | the intended row loop: the documents and metadata of exactly the admitted rows; document i matches metadata i |
| ModelsVectorDb.LoadStep | src/python/models/vector_db.py:87-94 | in the intended load, one more slice of the dataset adds its admitted rows after the earlier ones |
| ModelsVectorDb.AdmittedSlices | src/python/models/vector_db.py:88-90 | the rows admitted slice by slice are the rows admitted in one pass |
| ModelsVectorDb.BookkeepingVectorDb.constructor | src/python/models/vector_db.py:30-60 | an empty collection |
| ModelsVectorDb.BookkeepingVectorDb.AddBatch | src/python/models/vector_db.py:96-143 | as written: raises iff some row is admitted, and never reaches `collection.add` |
| ModelsVectorDb.BookkeepingVectorDb.AddDataFromCsv | src/python/models/vector_db.py:66-94 | as written: slices go through until one admits a row; the caught error ends the load there; it fails iff the dataset admits a row or cannot be read, and stores nothing |
| ModelsVectorDb.BookkeepingVectorDb.AddBatchIntended | src/python/models/vector_db.py:96-143 | intended: the admitted rows are appended; one add call, and none for a batch with no admitted rows |
| ModelsVectorDb.BookkeepingVectorDb.AddDataFromCsvIntended | src/python/models/vector_db.py:66-94 | intended: the admitted rows of the whole dataset are appended, slice by slice; an unreadable dataset adds nothing |
| ModelsVectorDb.BookkeepingVectorDb.ClearDatabase | src/python/models/vector_db.py:271-286 | a fresh, empty collection |
| ModelsVectorDb.BookkeepingVectorDb.InitializeFromDataset | src/python/models/vector_db.py:62-64 | as written: clear, then load; the index is left empty whatever the dataset, and the load fails iff the dataset admits a row or cannot be read |
| ModelsVectorDb.BookkeepingVectorDb.InitializeFromDatasetIntended | src/python/models/vector_db.py:62-64 | intended: clear, then load; the collection holds exactly the admitted rows of the dataset |
| ModelsVectorDb.BookkeepingVectorDb.SearchSimilar | src/python/models/vector_db.py:145-172 | the query is the merchant-product text; similarities 1 − distance in hit order |
| ModelsVectorDb.BookkeepingVectorDb.PredictCategory | src/python/models/vector_db.py:174-208 | no hits gives None and 0.0; with hits and no threshold it raises; otherwise the confidence is the vote's confidence over the hits, the category is the vote's category when that confidence reaches the threshold and None below it, and an accepted category is held by a hit at or above the threshold |
| ModelsVectorDb.BookkeepingVectorDb.GetAllCategories | src/python/models/vector_db.py:210-224 | each stored category once |
| ModelsVectorDb.BookkeepingVectorDb.GetCollectionStats | src/python/models/vector_db.py:226-247 | the total and per-category record counts |
| BackendVectorDb.AdmitRowsSpec | src/backend/models/vector_db.py:110-117 | admitted rows have non-empty categories and come from the table; when every row has a category, every row is admitted |
| BackendVectorDb.BuildBatch | src/backend/models/vector_db.py:97-135 | the documents and metadata of exactly the admitted rows, document i matching metadata i |
| BackendVectorDb.TableAdmittedSplit | src/backend/models/vector_db.py:88-91 | the rows a table admits are the rows its slices admit, in order |
| BackendVectorDb.LoadStep | src/backend/models/vector_db.py:88-91 | loading one more slice adds its admitted rows after the earlier ones |
| BackendVectorDb.DecideBestOfTop | src/backend/models/vector_db.py:211-238 | the first neighbour alone decides: the confidence is its similarity, the category is its category when that reaches the threshold and None below it, and the source is always "vector_db"; no neighbours gives None and 0.0 |
| BackendVectorDb.BestOfTopIsMostSimilar | src/backend/models/vector_db.py:223-238 | with neighbours nearest first, a rejection means no neighbour reaches the threshold |
| BackendVectorDb.BookkeepingVectorDb.constructor | src/backend/models/vector_db.py:28-53 | an empty collection |
| BackendVectorDb.BookkeepingVectorDb.NewIds | src/backend/models/vector_db.py:132 | fresh consecutive ids, distinct from the stored ones |
| BackendVectorDb.BookkeepingVectorDb.AddBatch | src/backend/models/vector_db.py:97-140 | the admitted rows are appended; one add call, and none for an empty batch |
| BackendVectorDb.BookkeepingVectorDb.InitializeFromDataset | src/backend/models/vector_db.py:63-95 | the admitted rows of the dataset are appended to what is stored, with no clearing |
| BackendVectorDb.BookkeepingVectorDb.AddRecord | src/backend/models/vector_db.py:142-164 | exactly one record is appended, even one with an empty category |
| BackendVectorDb.BookkeepingVectorDb.SearchSimilar | src/backend/models/vector_db.py:166-197 | similarities 1 − distance, in hit order |
| BackendVectorDb.BookkeepingVectorDb.PredictCategory | src/backend/models/vector_db.py:199-238 | asks for three neighbours and decides on the first of them, with source "vector_db" |
| BackendVectorDb.BookkeepingVectorDb.GetAllCategories | src/backend/models/vector_db.py:240-256 | each stored category once |
| BackendVectorDb.BookkeepingVectorDb.GetCollectionStats | src/backend/models/vector_db.py:258-279 | the total and per-category record counts |
| UtilsVectorDb.DecideNearest | src/python/utils/vector_db.py:196-222 | accepts iff the nearest similarity reaches the threshold; a rejection gives None, 0.0 and "unknown" |
| UtilsVectorDb.NearestAgreesWithBestOfTop | src/python/utils/vector_db.py:209-222 | it takes the same decision as the backend copy on the same nearest neighbour |
| UtilsVectorDb.BookkeepingVectorDb.constructor | src/python/utils/vector_db.py:58-83 | an empty collection |
| UtilsVectorDb.BookkeepingVectorDb.AddBatch | src/python/utils/vector_db.py:120-163 | the admitted rows are appended |
| UtilsVectorDb.BookkeepingVectorDb.InitializeFromDataset | src/python/utils/vector_db.py:93-118 | the admitted rows of the dataset are appended, with no clearing |
| UtilsVectorDb.BookkeepingVectorDb.SearchSimilar | src/python/utils/vector_db.py:165-194 | similarities 1 − distance, in hit order |
| UtilsVectorDb.BookkeepingVectorDb.PredictCategory | src/python/utils/vector_db.py:196-222 | the decision on the single nearest neighbour |
| UtilsVectorDb.BookkeepingVectorDb.GetAllCategories | src/python/utils/vector_db.py:224-240 | each stored category once |
| UtilsVectorDb.BookkeepingVectorDb.GetCollectionStats | src/python/utils/vector_db.py:242-263 | the total and per-category record counts |
| Normalizer.CollapseWhitespace | src/backend/models/EnhancedEmbedding.py:25 | the result is well spaced (no edge space, single spaces) and holds the non-space characters in order |
| Normalizer.CollapseIdempotent | src/backend/models/EnhancedEmbedding.py:25 | collapsing twice is collapsing once |
| Normalizer.CollapseFixesWellSpaced | src/backend/models/EnhancedEmbedding.py:25 | a well-spaced text is unchanged |
| Normalizer.CollapseBlank | src/backend/models/EnhancedEmbedding.py:25 | an all-whitespace text becomes "" |
| Normalizer.CollapseTwoWords | src/backend/models/EnhancedEmbedding.py:25 | two words with any whitespace around and between them become "w1 w2" |
| Normalizer.PreprocessCollapse | src/backend/models/EnhancedEmbedding.py:20-32 | a non-string gives its text unchanged; a string is collapsed |
| Normalizer.CollapseInputs | src/backend/models/EnhancedEmbedding.py:12-18 | one preprocessed entry per document, in order |
| Normalizer.StripSpec | src/python/utils/embedding.py:23 | no run of nine or more digits is left; every non-digit is kept in order |
| Normalizer.StripKeepsShortRuns | src/python/utils/embedding.py:23 | a text without a long digit run is unchanged |
| Normalizer.StripNoDigitPrefix | src/python/utils/embedding.py:23 | a digit-free stretch is kept, whatever follows it |
| Normalizer.StripShortRunPrefix | src/python/utils/embedding.py:23 | a run of one to eight digits is kept, whatever follows it, long runs included |
| Normalizer.StripLongRunPrefix | src/python/utils/embedding.py:23 | a run of nine or more digits is deleted whole |
| Normalizer.StripMiddleRun | src/python/utils/embedding.py:23 | "a 123456789 b" becomes "a  b" |
| Normalizer.PreprocessStripDigits | src/python/utils/embedding.py:16-29 | whitespace is collapsed first, then the long digit runs are deleted |
| Normalizer.StripDigitsNotIdempotent | src/python/utils/embedding.py:21-23 | a second pass can change the result, since deleting a run can leave a double space |
| Normalizer.StripDigitsInputs | src/python/utils/embedding.py:9-14 | one entry per document, in order |
| TextSplit.WordsSpec | src/backend/models/EnhancedEmbedding.py:25 | every piece of `str.split()` is a word, and together the pieces hold the non-space characters |
| TextSplit.WordsOfJoin | src/backend/models/EnhancedEmbedding.py:25 | splitting undoes a single-space join of words |
| TextSplit.SplitOnSpec | src/formatter/aliPayFormatter.ts:13 | at least one piece; no piece holds the separator; joining the pieces gives back the text |
| TextSplit.SplitLinesSpec | src/frontend/src/utils/formatter/index.ts:60 | no line holds a newline; a text ending in a newline gives a final "" |
| TextSplit.SplitOnJoin | src/frontend/src/utils/formatter/index.ts:61 | splitting a join of separator-free pieces gives the pieces back |
| Features.TimeFeatures | src/python/utils/extract_features.py:5-30 | the nine time features: hour/24, weekday/6, (month-1)/11, the weekend flag, each part-of-day flag set iff the hour lies in its range, and the pay-day flag; nine zeros when the conversion raises; for NaT the three scaled values are NaN and every flag is 0 |
| Features.ExactlyOneDayPart | src/python/utils/extract_features.py:17-20 | exactly one part-of-day flag is set |
| Features.AccountFeatures | src/python/utils/extract_features.py:33-45 | the four account-name flags; zeros for a missing or empty account |
| Features.LatinNamesAnyCase | src/python/utils/extract_features.py:36-43 | an account containing any letter-case spelling of "credit", "alipay" or "wechat" sets that flag |
| Features.CreditCardAnyCase | src/python/utils/extract_features.py:36-37 | "Credit Card" sets the credit-card flag |
| Features.AmountFeatures | src/python/utils/extract_features.py:48-61 | min(1, amount / 10000) and the three level flags; zeros for a missing amount |
| Features.ExactlyOneLevel | src/python/utils/extract_features.py:57-59 | exactly one amount level is set |
| Features.LevelBoundaries | src/python/utils/extract_features.py:54-59 | 50 is medium, 500 is large, and a negative amount is small with a negative normalised value |
| BillRows.MonthLabelShape | src/lib/alipay_formatter.py:37 | the month label of a valid time is seven characters, "YYYY-MM" |
| Common.RemoveCharSpec | src/formatter/wechatPayFormatter.ts:23 | no occurrence of the character is left; every other character keeps its multiplicity |
| Common.RemoveCharAppend | src/formatter/wechatPayFormatter.ts:23 | removal works piece by piece over a concatenation, so the kept characters stay in order |
| Common.ToLower | src/backend/utils/helpers.py:14 | same length, no upper-case ASCII letter, other characters unchanged |
| Sorting.SortBySpec | src/typescript/formatter/index.ts:25-29 | the result is sorted by key, a permutation of the input, and keeps the input order of equal keys |
| Sorting.SortByConcatTies | src/typescript/formatter/index.ts:25-29 | sorting a + b puts the elements of a before the elements of b that share their key |
| Sorting.FilterSortBy | src/backend/services/file_parser.py:74-81 | filtering commutes with the stable sort |
| Sorting.MapSortBy | src/backend/services/file_parser.py:74-78 | a map that keeps the key commutes with the stable sort |
| Sorting.FilterElements | src/preprocessor/index.ts:8-10 | the filter keeps exactly the elements that satisfy the predicate, in order |
| AiProcessor.ToFrame | src/backend/services/ai_processor.py:23 | the same records in order, each carrying every column of the frame |
| AiProcessor.ClassifiedSpec | src/backend/services/ai_processor.py:43-47 | a classified record keeps its other columns and gets a non-empty category and the prediction's confidence |
| AiProcessor.ClassifyRecords | src/backend/services/ai_processor.py:29-49 | records with a category are kept as they are, the others are classified in order; a raising predictor aborts the run |
| AiProcessor.QueriesOfSpec | src/backend/services/ai_processor.py:34-43 | the predictor is asked once for each uncategorised row, about that row's fields only |
| AiProcessor.ProcessedAreCategorised | src/backend/services/ai_processor.py:33-49 | every processed record has a non-empty category that is not NaN |
| AiProcessor.Distinct | src/backend/services/ai_processor.py:82 | each value of the column once, and nothing else |
| AiProcessor.DistinctOrder | src/backend/services/ai_processor.py:82 | the values come in order of first appearance |
| AiProcessor.CalculateStats | src/backend/services/ai_processor.py:59-117 | income and expense totals and the per-category and per-month tables; raises iff the flow or amount column is missing or some time does not parse |
| AiProcessor.CategoryTable | src/backend/services/ai_processor.py:81-95 | one entry per distinct category that is not NaN, with its row count and sums |
| AiProcessor.MonthTable | src/backend/services/ai_processor.py:100-109 | raises iff some time does not parse, with that time's error; otherwise one entry per distinct month label, NaN included, with the sums of the rows that carry it |
| AiProcessor.NoTimeColumn | src/backend/services/ai_processor.py:99 | without a 交易时间 column no time can fail to parse |
| AiProcessor.NaNMonthEmpty | src/backend/services/ai_processor.py:102-108 | the NaN month matches no row, so its entry has zero expense and zero income |
| AiProcessor.OfMonthSpec | src/backend/services/ai_processor.py:102 | a month's slice holds exactly the rows with that month label |
| AiProcessor.NoCategoryColumn | src/backend/services/ai_processor.py:81 | without a 类型 column every category cell is NaN, so the category table is empty |
| AiProcessor.CategoryCountIsOccurrences | src/backend/services/ai_processor.py:86-89 | a category's row count is its number of occurrences |
| AiProcessor.OfCategorySpec | src/backend/services/ai_processor.py:86 | every row of a category's slice has that category, and every such row is in it |
| AiProcessor.ProcessWithAi | src/backend/services/ai_processor.py:4-57 | a DataFrame raises at the truth test; empty input gives the "no bill data" error dict; a dict with `error` is handed back and any other non-empty dict raises at `iterrows`; otherwise it raises iff the predictor raises on an uncategorised row, the 收/支 or 金额(元) column is missing, or some time does not parse, and it returns the classified records with their statistics |
| AiProcessor.ProcessedColumns | src/backend/services/ai_processor.py:43-49 | classifying adds only the 类型 and 分类置信度 columns |
| AiProcessor.ProcessedMonths | src/backend/services/ai_processor.py:43-49 | classifying leaves every record's month label as it was |
| AiProcessor.TrainModel | src/backend/services/ai_processor.py:119-151 | the dataset is loaded on top of the index and the total and per-category record counts are reported; an exception gives the failure response |
| BillMerge.ParseFile | src/backend/services/file_parser.py:26-43 | the Alipay parse when it is non-empty, else the WeChat parse when it is non-empty, else the error |
| BillMerge.ParseFileNonEmpty | src/backend/services/file_parser.py:29-38 | a successful parse is never empty |
| BillMerge.SortProjectFilterSpec | src/backend/services/file_parser.py:67-81 | sorted by time, projected on the eight columns, no '/' rows, and the multiset of the kept rows |
| BillMerge.MergeBillsSpec | src/backend/services/file_parser.py:50-83 | the same, over all the parsed bills together |
| BillMerge.ReindexSpec | src/backend/services/file_parser.py:77-78 | the eight columns in order; a missing column is NaN |
| BillMerge.ReadAll | src/python/utils/formatter/format_and_merge_bills.py:19-36 | the bills the read loop collects from the Alipay and WeChat files |
| BillMerge.FormatAndMergeBills | src/python/utils/formatter/format_and_merge_bills.py:7-59 | Alipay bills then WeChat bills, sorted, projected and filtered; an error when no file parsed |
| BillMerge.FormatAndMergeSpec | src/python/utils/formatter/format_and_merge_bills.py:39-57 | sorted, no '/' rows, and the multiset of the kept rows of both sources |
| TsMerge.MergeRecordsSpec | src/typescript/formatter/index.ts:25-29 | sorted by time, a permutation of both sources, Alipay rows before WeChat rows at equal times |
| TsMerge.FormatBillRecords | src/typescript/formatter/index.ts:10-31 | only truthy paths are read; the merge of both sources |
| TsMerge.FormatBillRecordsSkipsFalsyPath | src/typescript/formatter/index.ts:11-16 | a falsy Alipay path contributes nothing |
| TsMerge.FormatBillToCsv | src/formatter/index.ts:8-40 | every merged record, in order, with its time written out |
| TsMerge.DetectKind | src/frontend/src/utils/formatter/index.ts:20-24 | "alipay" in the text wins over "微信支付" |
| TsMerge.FormatUpload | src/frontend/src/utils/formatter/index.ts:5-42 | the size and type checks, the dispatch on the detected kind, and the prefixed rethrow |
| TsMerge.UploadSizeBoundary | src/frontend/src/utils/formatter/index.ts:15-18 | exactly 10 MiB is accepted and one byte more is refused |
| TsMerge.ParseCsv | src/frontend/src/utils/formatter/index.ts:55-67 | the text split into lines on "\r?\n", each line split on ',' |
| TsMerge.ParseCsvSpec | src/frontend/src/utils/formatter/index.ts:60-61 | rejoining a row with ',' gives its line; a trailing newline gives a final [""] row |
| TsMerge.ParseCsvIgnoresQuotes | src/frontend/src/utils/formatter/index.ts:61 | a comma inside quotes still splits its field |
| TsMerge.ProcessTransactions | src/frontend/src/utils/processData.ts:4-21 | the rows of each file in file order, a throwing file skipped, then the stable sort by time |
| TsMerge.ExportCsvRoundTrip | src/frontend/src/utils/processData.ts:26-28 | values free of ',' and newlines are read back by splitting the export |
| BillLines.ClosingOpens | src/lib/alipay_formatter.py:13-18 | a closing line is also an opening line; 22 to 27 dashes open but do not close |
| BillLines.DropSpaceBeforeCommaSpec | src/lib/alipay_formatter.py:21 | no whitespace is left before a comma, and every non-whitespace character is kept in order |
| BillLines.DropSpaceRunComma | src/lib/alipay_formatter.py:21 | a whitespace run directly before a comma is removed and the comma kept |
| BillLines.DropSpaceBeforeCommaKeeps | src/lib/alipay_formatter.py:21 | a stretch with no whitespace before a comma that does not end in whitespace is kept whatever follows, so whitespace not before a comma stays |
| BillLines.DropSpaceBeforeCommaClean | src/lib/alipay_formatter.py:21 | a line with no whitespace before a comma is unchanged, so the cleanup is idempotent |
| BillLines.StripSpec | src/backend/utils/formatter/wechat_formatter.py:25 | the result is a slice of the line with only whitespace cut off, and has no whitespace at either end |
| BillLines.StripIdempotent | src/backend/utils/formatter/wechat_formatter.py:25 | stripping twice is stripping once |
| BillLines.CleanAll | src/lib/alipay_formatter.py:21-22 | each line cleaned, in order |
| BillLines.AlipayLines | src/lib/alipay_formatter.py:8-22 | the loop computes the Alipay table window |
| BillLines.AlipayWindowSpec | src/lib/alipay_formatter.py:10-19 | no line before the opening line, and the window stops before the first closing line after it |
| BillLines.WechatWindow | src/backend/utils/formatter/wechat_formatter.py:18-25 | every line after the first opening line, stripped |
| BillLines.WechatLines | src/backend/utils/formatter/wechat_formatter.py:18-25 | the loop computes the WeChat table window |
| BillLines.ToggleFilter | src/formatter/aliPayFormatter.ts:16-31 | the loop computes the divider toggle, starting switched off |
| BillLines.ToggledHasNoDivider | src/formatter/aliPayFormatter.ts:17-31 | no divider line is kept |
| BillLines.ToggledPlain | src/formatter/aliPayFormatter.ts:19-30 | plain lines are kept while the toggle is on and dropped while it is off |
| BillLines.TogglePairs | src/formatter/aliPayFormatter.ts:19-30 | the lines between the first and second dividers are kept, then the toggle starts over |
| PyFormatters.Header | src/lib/alipay_formatter.py:24-26 | the columns are the union of the row keys |
| PyFormatters.Direction | src/lib/alipay_formatter.py:33 | 不计收支 becomes '/'; other values are copied |
| PyFormatters.LibAlipayRowSpec | src/lib/alipay_formatter.py:26-46 | strict time and amount parsing, the sign rule for expenses and the fixed columns |
| PyFormatters.LibAlipayFrame | src/lib/alipay_formatter.py:24-46 | KeyError without the needed columns; a frame iff every row parses |
| PyFormatters.LibAlipayFormat | src/lib/alipay_formatter.py:3-48 | the window, the row parse and the frame, in that order |
| PyFormatters.LibAlipayNoRows | src/lib/alipay_formatter.py:24-26 | a table with no rows gives KeyError |
| PyFormatters.PyAlipayRowSpec | src/python/lib/alipay_formatter.py:26-36 | fails iff the time does not parse; the parsed time, the amount's value or NaN when it does not parse, product and merchant copied, 收/支 with 不计收支 as "/", 类型 and 备注 NaN, 支付方式 支付宝 |
| PyFormatters.PyAlipayFrame | src/python/lib/alipay_formatter.py:24-36 | KeyError without the needed columns; a frame iff every time parses |
| PyFormatters.PyAlipayFormat | src/python/lib/alipay_formatter.py:3-38 | the window, the row parse and the frame, in that order |
| PyFormatters.WechatRowSpec | src/python/utils/formatter/wechat_formatter.py:19-25 | fails iff the time does not parse; the parsed time, 商品 as 商品名称, merchant and 收/支 copied, the amount read without '¥' or NaN when that does not parse, 类型 and 备注 NaN, 支付方式 微信支付 |
| PyFormatters.WechatFrame | src/python/utils/formatter/wechat_formatter.py:17-25 | KeyError without the needed columns |
| PyFormatters.PyWechatFormat | src/python/utils/formatter/wechat_formatter.py:5-27 | the window, the row parse and the frame; errors propagate |
| PyFormatters.BackendWechatFormat | src/backend/utils/formatter/wechat_formatter.py:15-41 | the same, except that an error gives [] |
| Helpers.LastIndex | src/backend/utils/helpers.py:14 | the last occurrence of the character, or None when it does not occur |
| Helpers.ValidateFileExtensionSpec | src/backend/utils/helpers.py:14 | accepts iff there is a last '.' and the lower-cased text after it is allowed; a name without '.' is refused |
| Helpers.TrailingDot | src/backend/utils/helpers.py:14 | a name ending in '.' has the empty extension |
| Helpers.UppercaseEntryNeverMatches | src/backend/utils/helpers.py:14 | an allowed entry holding an upper-case letter never matches |
| Helpers.GenerateResponse | src/backend/utils/helpers.py:16-23 | exactly the keys success, message and data; data is None unless given |
| Helpers.ParseBillData | src/backend/utils/helpers.py:1-6 | the empty dict, whatever the input |
| Keywords.KeyOfInjective | src/preprocessor/keywordsGenerator.ts:37 | a merchant without '\|' and the product are read back from the key |
| Keywords.Bump | src/preprocessor/keywordsGenerator.ts:39-43 | the count becomes the old count, or 0 for a new key, plus one |
| Keywords.KeywordsGenerator | src/preprocessor/keywordsGenerator.ts:7-60 | {} without a dataset path, else the keywords learned from the informative rows |
| Keywords.LearnFromAppend | src/preprocessor/keywordsGenerator.ts:36-57 | running over a + b is running over a, then over b |
| Keywords.LearnSound | src/preprocessor/keywordsGenerator.ts:45-55 | each learned key counts at least the threshold and holds the type of the last record with that key |
| Keywords.LearnConsistent | src/preprocessor/keywordsGenerator.ts:36-56 | a key whose records agree on the type is counted exactly and learned iff it reaches the threshold |
| Keywords.BanHolds | src/preprocessor/keywordsGenerator.ts:50-54 | a banned key stays unlearned while its count is below the threshold |
| Keywords.ConflictBans | src/preprocessor/keywordsGenerator.ts:50-54 | a record of another type drops a learned key, and the key stays out |
| Preprocessor.FirstMatch | src/preprocessor/index.ts:19-21 | the first keyword that the product contains |
| Preprocessor.UserFillSpec | src/preprocessor/index.ts:16-28 | typed rows are unchanged; a fill comes from the first match, and only with a valid type; the fill is idempotent |
| Preprocessor.UserFillStage | src/preprocessor/index.ts:16-28 | each row's category is updated in place, and nothing else changes |
| Preprocessor.BillPreprocessor | src/preprocessor/index.ts:4-31 | the kept rows, with the user-keyword fill |
| Preprocessor.AutoFillSpec | src/frontend/src/bak/preprocessor/index.ts:36-45 | an untyped row gets a truthy learned type; a user-keyword type takes precedence |
| Preprocessor.AutoFillStage | src/frontend/src/bak/preprocessor/index.ts:36-45 | each row's category is updated in place, and nothing else changes |
| Preprocessor.BakBillPreprocessor | src/frontend/src/bak/preprocessor/index.ts:5-48 | the kept rows, with the user fill and then the learned fill |
| Preprocessor.KeptRows | src/preprocessor/index.ts:8-10 | the drop rule, and the output is no longer than the input |
| TsFormatters.AlipayRow | src/formatter/aliPayFormatter.ts:41-53 | every field of the transformed row |
| TsFormatters.WechatRow | src/formatter/wechatPayFormatter.ts:19-31 | '¥' removed from the amount, 亲属卡 kept iff given, a "/" remark emptied |
| TsFormatters.WechatAmount | src/formatter/wechatPayFormatter.ts:23 | every other character of the amount is kept, in order; an amount without '¥' is unchanged and a lone leading '¥' is dropped |
| TsFormatters.WechatPayFormatter | src/formatter/wechatPayFormatter.ts:6-40 | each parsed row transformed, in parse order |
| TsFormatters.AliPayFormatter | src/formatter/aliPayFormatter.ts:6-62 | the table text parsed, and each row transformed in order |
| TsFormatters.AlipayTableHasNoNewline | src/formatter/aliPayFormatter.ts:13-33 | gluing the kept lines leaves no newline in the table text |

## Left out

- The ChromaDB client and the embedding model are not part of this model. A query is a parameter that gives the hits: ids, distances and metadata.
- `encode` is left out, because it is a foreign call. So is `_extract_text_features`, which only feeds it.
- The `__new__`/`_initialized` singleton of the vector database classes is left out. Each model is a plain object.
- Reading the config file is left out; the threshold, the excluded categories and the batch size are parameters.
- File I/O is left out: files, temporary files, `fs`, `iconv`, `FileReader`, `Blob`, XLSX and the output stream. The text or rows they yield are parameters.
- The CSV and Excel parsers, `pandas.to_datetime`, `pandas.to_numeric` and `new Date` are parameters.
- `csv.DictReader` filling short rows with None is not modelled. Rows are maps from column to text.
- The tie order of `DataFrame.sort_values` is not documented as stable. The model takes the sort as stable, as the JavaScript sort is.
- The numeric values of the `RecordType` enum are left out. `Object.values` also yields them, and the model checks types against the names only.
- Key order and duplicate keys of the JSON settings are left out. The user keywords are a sequence of pairs.
- Common.ToLower: lower-cases ASCII only, while `str.lower()` and `toLowerCase()` also fold other scripts.
- `\d` is taken to mean the ASCII and full-width digits, not every Unicode decimal digit.
- Amounts, similarities and confidences are `real`; floating-point rounding is left out. So is `format_currency`, which only formats text.
- `extract_transaction_fields` is taken as the row fields the model already has.
- ModelsVectorDb.BuildBatchIntended: the time and amount features that `_add_batch` puts into the metadata are left out, so the metadata is not tied to them. Whether ChromaDB would accept their array values is not modelled either.
- PyFormatters.BackendWechatFormat: the empty frame with the eight column names is represented as the empty list of rows.
- An invalid `new Date` (NaN) is left out. A date parser is a total function into integers.
- Alerts and console logging are left out.
- The `alibabaPayFormatter` modules and the backup `keywordsGenerator` import are not part of this model. src/formatter/index.ts imports `./alipayFormatter`, and its formatters are parameters.
- TsMerge.ProcessTransactions: the in-place JavaScript sort is modelled on values.
- Exception messages are left out, apart from the prefix of the upload rethrow and the response texts of `train_model`.
- ModelsVectorDb.BookkeepingVectorDb.ClearDatabase: a failing `delete_collection` would make the source raise. It is a foreign call and is not modelled.

## Findings

| source | as written | input that shows it | evidently intended | confidence | as-written member | corrected member |
|---|---|---|---|---|---|---|
| src/python/models/vector_db.py:114-115 | `[normalized_amount, amount_size] = extract_amount_features(...)` unpacks a four-element array into two names, so it raises ValueError; `add_data_from_csv` catches it and ends the load, and nothing is stored | a dataset with one row of category 餐饮, merchant 食堂, product 午餐, amount 12.0 | every admitted row is stored, with the amount features read by position | high, not executed | ModelsVectorDb.LoadFailsOnAdmittedRow | ModelsVectorDb.BookkeepingVectorDb.InitializeFromDatasetIntended |
