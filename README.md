# InsightOps classification core, in Dafny

This project models the classification service of the Hana Card VoC ("voice of the
customer") system. The service sorts consulting transcripts into a fixed taxonomy of
consulting categories, using a language model, and keeps track of which raw
transcripts are already classified.

It models six parts:

- **The enhanced pipeline** (module `EnhancedService`).
  - It builds a prompt that lists the taxonomy, one line per category.
  - It asks the model, then strips the code fence from the reply.
  - It maps the JSON tree of the reply onto a classification block and an analysis block.
  - A `category_id` in the payload is trusted as it is. Without one, the id is looked up
    by category name, with the fixed fallback id `23515d46`.
- **The admin-service client** (class `AdminClient.AdminApiClient`). It holds the
  taxonomy as a two-field cache: a list and its timestamp. The cache expires after thirty
  minutes. Every response is validated strictly, and a refresh can be forced.
- **The batch coordinator** (class `BatchService.VocBatchService`).
  - It takes a bounded page of unprocessed raw records and classifies them one by one.
  - It flags a record as processed only when its classification succeeds. A failure is
    counted and the loop goes on.
  - It also clears the normalized store and computes the status counters.
- **The legacy single-label classifier** (module `LegacyClassifier`). It trims the reply
  and removes its quotes. It then matches the result against the 25 category names in
  three tiers: exact, first partial match in table order, default. Each tier has its own
  confidence: 0.95, 0.8 or 0.6.
- **The category table** (module `ConsultingCategories`).
- **The controller's read side** (module `Controller`).
  - It rolls a category up into one of six big categories by an ordered keyword rule.
  - It builds the analysis-result list for mail contents, with null for missing or
    unparseable entries.
  - It builds the dated, paged VoC list.

Support modules:

- `Wrappers`: `Option` and `Result`.
- `JavaStrings`: `indexOf`, `lastIndexOf`, `contains`, `trim` and `replaceAll` over a
  character class.
- `JsonTree`: the part of Jackson's `JsonNode` the code reads, that is `has`, `get`,
  `size`, `asText` and `asDouble`.
- `Time`: `LocalDateTime` as a day number plus nanoseconds.
- `Entities`: the `VocRaw` and `ConsultingClassification` rows.

The model follows the code's own form.

- Pure lookups and the string handling are functions.
- The prompt loop, the alternatives loop, the batch loop and the mail-contents loop are
  methods with loop invariants. Each method is proved equal to a specification function.
- The admin cache and the batch service are classes whose fields the methods update.

Where the system's documented behaviour and its code disagree, the model follows the
code:

- The list endpoint's date window is modelled as written. The query's `Between` is
  inclusive at both ends, and its upper bound is the midnight after the end date. So
  `Controller.GetVocList` also lists the rows dated at that midnight, that is the rows of
  the day after the end date. `Controller.GetVocListIntended` is the same call over the
  half-open window the code means; see "## Findings".
- The enhanced pipeline persists nothing. Its database save is commented out
  (`EnhancedOpenAIService.java:90-96`), so the batch never writes to the normalized
  store.
- The pipeline fails when the reply has no classification block, because its completion
  log line dereferences that block.

The code as given does not compile in six places, and each is modelled by its evident
meaning:

- `ClassificationInfo` has no `categoryId` setter.
- `convertToClassificationRequest` calls setters that `ClassificationRequest` lacks. Only
  the source id, the content and the date are copied.
- The list query passes `LocalDateTime` bounds to a repository method declared over
  `LocalDate` that returns a `List`.
- `findByCategoryIdOrderByCreatedAtDesc` is not declared at all.
- `convertToVocListItem` passes the entity's `LocalDate` consulting date to the
  `VocListItem` constructor, which takes a `LocalDateTime` (`VocListItem.java:42`). The
  item carries the day.
- `convertToClassificationRequest` passes the raw record's `LocalDateTime` consulting date
  to a setter over `LocalDate` (`VocBatchService.java:206`, `ClassificationRequest.java:62`).
  The request carries the calendar day of that date-time.

## Model

| member | source | states |
|---|---|---|
| ConsultingCategories.CategoryCount | src/main/java/com/hanacard/constants/ConsultingCategories.java:38 | the category count equals the table length, which is 25 |
| ConsultingCategories.IsValidCategory | src/main/java/com/hanacard/constants/ConsultingCategories.java:43-45 | a name is valid exactly when it equals one of the table's entries |
| ConsultingCategories.GetAllCategories | src/main/java/com/hanacard/constants/ConsultingCategories.java:50-52 | the copy has the table's length and the table's entries, in order |
| ConsultingCategories.CategoriesDistinct | src/main/java/com/hanacard/constants/ConsultingCategories.java:10-36 | the 25 names are pairwise distinct, and the default "이용내역 안내" is in the table, as its second entry |
| JavaStrings.IndexOf | src/main/java/com/hanacard/service/EnhancedOpenAIService.java:178 | the result is -1 or a position where the pattern occurs, and no earlier position holds it |
| JavaStrings.LastIndexOf | src/main/java/com/hanacard/service/EnhancedOpenAIService.java:179 | the result is -1 or a position where the pattern occurs, and no later position holds it |
| JavaStrings.Contains | src/main/java/com/hanacard/service/EnhancedOpenAIService.java:177 | true exactly when the pattern occurs at some position |
| JavaStrings.Trim | src/main/java/com/hanacard/service/OpenAIService.java:134 | the result is the input cut at two positions, where every character before the first cut and from the second cut on is at most U+0020; the result neither starts nor ends with such a character; an input already in that shape is returned unchanged |
| JavaStrings.TrimOfPadded | src/main/java/com/hanacard/service/OpenAIService.java:134 | a core padded on both sides with characters up to U+0020, whose own first and last characters are not such characters, trims to exactly that core |
| JavaStrings.BlankMeansAllTrimmable | src/main/java/com/hanacard/service/OpenAIService.java:72 | a text is blank exactly when every character is at most U+0020 |
| JavaStrings.RemoveChars | src/main/java/com/hanacard/service/OpenAIService.java:134 | no character of the class is left, every other character keeps its number of occurrences, and an input without such characters is unchanged |
| JavaStrings.RemoveCharsAppend | src/main/java/com/hanacard/service/OpenAIService.java:134 | removing from a concatenation is the concatenation of the removals, so the kept characters stay in their order |
| JavaStrings.RemoveCharsSingle | src/main/java/com/hanacard/service/OpenAIService.java:134 | a single character is removed exactly when it is in the class |
| JavaStrings.RemoveCharsWrapped | src/main/java/com/hanacard/service/OpenAIService.java:134 | a text wrapped in a character of the class and holding none itself comes back as the text |
| JsonTree.Get | src/main/java/com/hanacard/service/EnhancedOpenAIService.java:249-250 | a field is found exactly when the node is an object that has it, and then it is that field's value |
| JsonTree.At | src/main/java/com/hanacard/service/EnhancedOpenAIService.java:275 | an element is found exactly for an array and an index below its length, and then it is the element at that index |
| Time.AtStartOfDay | src/main/java/com/hanacard/controller/ClassificationController.java:289-290 | the result is the valid midnight of the given day |
| Time.NanosOrder | src/main/java/com/hanacard/client/AdminApiClient.java:58 | for valid date-times, comparing nanosecond counts equals chronological comparison, day first, then time of day |
| LegacyClassifier.NewOpenAIService | src/main/java/com/hanacard/service/OpenAIService.java:34-41 | construction fails exactly for a null or blank API key, with the missing-key error; otherwise the service keeps the given settings |
| LegacyClassifier.CleanResponse | src/main/java/com/hanacard/service/OpenAIService.java:134 | the cleaned reply holds no double or single quote, every other character of the trimmed reply keeps its number of occurrences, and a trimmed reply without quotes is returned as it is |
| LegacyClassifier.CleanPaddedReply | src/main/java/com/hanacard/service/OpenAIService.java:134 | a reply padded with blanks cleans to its core with the quotes taken out, the other characters in order |
| LegacyClassifier.CleanQuotedName | src/main/java/com/hanacard/service/OpenAIService.java:134 | a category name the model wrapped in double quotes and blanks cleans to the bare name |
| LegacyClassifier.FirstPartialIndex | src/main/java/com/hanacard/service/OpenAIService.java:142-147 | the index found names an entry that matches partially (containment either way), and no earlier entry does; no index means no entry matches |
| LegacyClassifier.AnyPartialMatch | src/main/java/com/hanacard/service/OpenAIService.java:166-167 | true exactly when some entry contains the cleaned reply or is contained in it |
| LegacyClassifier.ExtractCategory | src/main/java/com/hanacard/service/OpenAIService.java:133-152 | the category returned is always a member of the table |
| LegacyClassifier.CalculateConfidence | src/main/java/com/hanacard/service/OpenAIService.java:157-175 | the confidence is one of 0.95, 0.8 and 0.6 |
| LegacyClassifier.ConfidenceMatchesTier | src/main/java/com/hanacard/service/OpenAIService.java:133-175 | 0.95 exactly when the cleaned reply is a valid name, and the name is that cleaned reply; 0.8 goes with the first partially matching entry in table order; 0.6 exactly when nothing matches, and the category is then "이용내역 안내" |
| LegacyClassifier.NamesAreLong | src/main/java/com/hanacard/constants/ConsultingCategories.java:10-36 | every table name has at least four characters |
| LegacyClassifier.ShortNamesAreInvalid | src/main/java/com/hanacard/constants/ConsultingCategories.java:43-45 | a text shorter than four characters is not a valid category |
| LegacyClassifier.FirstPartialIndexIs | src/main/java/com/hanacard/service/OpenAIService.java:142-147 | a matching entry with no matching entry before it is the one the search loop returns |
| LegacyClassifier.PartialMatchTakesTableOrder | src/main/java/com/hanacard/service/OpenAIService.java:142-147 | the reply "한도" gives "한도상향 접수/처리", the earlier of its two partial matches, with confidence 0.8 |
| LegacyClassifier.QuotesOnlyReplyPicksFirstEntry | src/main/java/com/hanacard/service/OpenAIService.java:133-147 | any reply made only of quote characters cleans to the empty text, which every name contains, so the first entry "도난/분실 신청/해제" is chosen with confidence 0.8 |
| LegacyClassifier.ClassifyConsultingContent | src/main/java/com/hanacard/service/OpenAIService.java:69-87 | a null or blank reply is an error before any extraction; otherwise the result pairs the extracted category, always a valid one, with the confidence of the same reply |
| EnhancedService.ExtractJsonFromResponse | src/main/java/com/hanacard/service/EnhancedOpenAIService.java:175-196 | in every case the payload is a contiguous substring of the reply |
| EnhancedService.TaggedFenceExtracted | src/main/java/com/hanacard/service/EnhancedOpenAIService.java:177-183 | with a "```json" tag whose end lies before the last fence, the payload is the trimmed text from the tag's end to the last fence |
| EnhancedService.BareFenceExtracted | src/main/java/com/hanacard/service/EnhancedOpenAIService.java:186-192 | without a usable tagged pair but with a bare pair, the payload is the trimmed text from the first fence's end to the last fence |
| EnhancedService.UnfencedReplyTrimmed | src/main/java/com/hanacard/service/EnhancedOpenAIService.java:194-195 | without a usable pair the whole reply is returned, trimmed |
| EnhancedService.FindCategoryIdByName | src/main/java/com/hanacard/service/EnhancedOpenAIService.java:313-319 | the id of the first entry, in list order, whose name equals the argument exactly; "23515d46" when no entry matches |
| EnhancedService.ResolvedIdIsKnown | src/main/java/com/hanacard/service/EnhancedOpenAIService.java:313-319 | when the fallback id is in the list, every name-resolved id is an id of the list |
| EnhancedService.DefaultTaxonomyFacts | src/main/java/com/hanacard/service/EnhancedOpenAIService.java:122-137 | the built-in taxonomy's first entry is "23515d46" with "이용내역 안내"; its ids are pairwise distinct; each of its names is one of the 25 consulting categories |
| EnhancedService.DefaultResolutionIsKnown | src/main/java/com/hanacard/service/EnhancedOpenAIService.java:313-319 | with the built-in taxonomy every name-resolved id is one of its ids |
| EnhancedService.TheftCategoryResolves | src/main/java/com/hanacard/service/EnhancedOpenAIService.java:313-319 | the name "도난/분실 신청/해제" resolves to "235166ea" in the built-in taxonomy |
| EnhancedService.ListingAppend | src/main/java/com/hanacard/service/EnhancedOpenAIService.java:203-206 | appending a category to the list appends its line "- name (ID: id)" to the listing |
| EnhancedService.ListingPrefix | src/main/java/com/hanacard/service/EnhancedOpenAIService.java:203-206 | the listing of the first entries is a prefix of the listing of the whole list |
| EnhancedService.LineInListing | src/main/java/com/hanacard/service/EnhancedOpenAIService.java:203-206 | each entry's line occurs in the listing right after the lines of the entries before it |
| EnhancedService.PromptListsEveryCategory | src/main/java/com/hanacard/service/EnhancedOpenAIService.java:201-235 | a filled template, the enhanced prompt among them, holds the content verbatim right after the fixed head, and each category's line at its place in list order |
| EnhancedService.BuildEnhancedPromptWithDynamicCategories | src/main/java/com/hanacard/service/EnhancedOpenAIService.java:201-236 | the builder loop yields exactly the prompt text: head, content, middle, one line per category in order, tail |
| EnhancedService.RequiredText | src/main/java/com/hanacard/service/EnhancedOpenAIService.java:254 | a field's text is read exactly when the node has that field, and otherwise the parse fails naming the field |
| EnhancedService.RequiredDouble | src/main/java/com/hanacard/service/EnhancedOpenAIService.java:256 | a field's number is read exactly when the node has that field, and otherwise the parse fails naming the field |
| EnhancedService.AlternativesAllSucceed | src/main/java/com/hanacard/service/EnhancedOpenAIService.java:269-284 | the alternatives parse exactly when every element parses |
| EnhancedService.AlternativesCopiedInOrder | src/main/java/com/hanacard/service/EnhancedOpenAIService.java:269-284 | a successful parse has one entry per element, and entry i is element i's category and confidence |
| EnhancedService.AlternativesFirstFailure | src/main/java/com/hanacard/service/EnhancedOpenAIService.java:274-281 | a failing parse reports the error of the first element that fails |
| EnhancedService.ObjectAlternativesRejected | src/main/java/com/hanacard/service/EnhancedOpenAIService.java:272-278 | a non-empty object in place of the array fails at element 0, where an index lookup finds nothing |
| EnhancedService.ParseAlternatives | src/main/java/com/hanacard/service/EnhancedOpenAIService.java:269-284 | the loop filling `altCategories[i]` gives exactly the parse of the elements in order, or the first element's failure |
| EnhancedService.ParseEnhancedResponseWithCategoryId | src/main/java/com/hanacard/service/EnhancedOpenAIService.java:241-308 | the setter-by-setter parse equals the block-by-block parse of the extracted payload |
| EnhancedService.CategoryIdTrustedOrResolved | src/main/java/com/hanacard/service/EnhancedOpenAIService.java:254-266 | the category and confidence are the fields' values; a `category_id` present is copied as its text, unchecked; without one the id is the name lookup's |
| EnhancedService.RequiredFieldsEnforced | src/main/java/com/hanacard/service/EnhancedOpenAIService.java:249-300 | a classification without `category`, or with it but without `confidence`, fails naming that field; an analysis parses exactly when all three of its texts are present |
| EnhancedService.AlternativesUnsetWhenAbsent | src/main/java/com/hanacard/service/EnhancedOpenAIService.java:269-284 | without `alternative_categories` the classification parses and its alternatives stay unset |
| EnhancedService.ParseBlocks | src/main/java/com/hanacard/service/EnhancedOpenAIService.java:241-308 | a payload that is not JSON fails; otherwise the parse succeeds exactly when every present top-level block parses; on success each block is its own parse when present and unset when absent; a failing classification block gives its error, and a failing analysis block after a good classification gives its error |
| EnhancedService.ProcessAndSaveConsultingContent | src/main/java/com/hanacard/service/EnhancedOpenAIService.java:61-117 | the call equals the pipeline over the built-in taxonomy |
| EnhancedService.ProcessWithCategories | src/main/java/com/hanacard/service/EnhancedOpenAIService.java:71-111 | prompt, model call, parse and assembly give the pipeline function's result over the given taxonomy, with failures mapped step by step |
| EnhancedService.AssembleResponse | src/main/java/com/hanacard/service/EnhancedOpenAIService.java:81-111 | the setters give the parsed blocks plus the request's fields, the timings and the temporary id; a missing classification fails |
| EnhancedService.ProcessCopiesRequest | src/main/java/com/hanacard/service/EnhancedOpenAIService.java:79-100 | a successful call copies the request's source id, content and date, reports the elapsed milliseconds in seconds, and carries the parsed classification of the model's reply, which is always present, and the parsed analysis, present or not |
| EnhancedService.ReplyWithoutClassificationFails | src/main/java/com/hanacard/service/EnhancedOpenAIService.java:105-115 | a reply that parses without a classification block fails the call |
| AdminClient.Validate | src/main/java/com/hanacard/client/AdminApiClient.java:73-104 | success exactly for a body that is present, successful, with data and a non-empty list, and the result is that list; a transport error is passed on as is; a null body and `success=false` have their own errors |
| AdminClient.ValidationErrorsDistinct | src/main/java/com/hanacard/client/AdminApiClient.java:73-92 | null body, `success=false`, null data and a null or empty list each give their own error, and a good response its list |
| AdminClient.CacheExpiresAfterThirtyMinutes | src/main/java/com/hanacard/client/AdminApiClient.java:55-59 | the cache is valid exactly while now is less than the update time plus thirty minutes (strict: invalid at thirty minutes, valid one nanosecond earlier), and never when a field is null |
| AdminClient.AdminApiClient.constructor | src/main/java/com/hanacard/client/AdminApiClient.java:32-38 | a new client has neither a list nor a timestamp |
| AdminClient.AdminApiClient.CallAdminApiStrict | src/main/java/com/hanacard/client/AdminApiClient.java:61-111 | one endpoint call; the result is the response's validation; on success the list and the timestamp are set together to the returned list and now; on failure neither changes; the invariant is kept |
| AdminClient.AdminApiClient.GetConsultingCategories | src/main/java/com/hanacard/client/AdminApiClient.java:44-53 | a valid cache is returned with no endpoint call and no change; otherwise one strict call; a returned list is always non-empty and is the cached list |
| AdminClient.AdminApiClient.RefreshCategoryCache | src/main/java/com/hanacard/client/AdminApiClient.java:116-121 | both fields are cleared before the call, so a failed refresh leaves no cache, and a successful one caches the new list at now |
| AdminClient.AdminApiClient.IsCacheAvailable | src/main/java/com/hanacard/client/AdminApiClient.java:126-128 | true exactly when the list is set and non-empty |
| AdminClient.AdminApiClient.GetCachedCategoryCount | src/main/java/com/hanacard/client/AdminApiClient.java:133-135 | the list's size, or 0 when there is no list |
| AdminClient.AdminApiClient.AvailabilityAgreesWithCount | src/main/java/com/hanacard/client/AdminApiClient.java:126-135 | under the cache invariant the cache is available exactly when it is set, and exactly when the count is positive |
| BatchService.ConvertToClassificationRequest | src/main/java/com/hanacard/service/VocBatchService.java:203-213 | the request carries the record's source id, its content and the calendar day of its consulting date |
| BatchService.UnprocessedFrom | src/main/java/com/hanacard/service/VocBatchService.java:53-55 | the indices of exactly the unprocessed records, in increasing order |
| BatchService.UnprocessedPage | src/main/java/com/hanacard/service/VocBatchService.java:53-55 | at most batchSize records, all unprocessed; the page is the leading part of all unprocessed records in table order; a short page holds every unprocessed record |
| BatchService.MarkProcessed | src/main/java/com/hanacard/service/VocBatchService.java:77-78 | the record becomes processed at now, and no other field changes |
| BatchService.PageSummary | src/main/java/com/hanacard/service/VocBatchService.java:59-97 | an empty page gives the nothing-to-process summary and only an empty page does; otherwise the summary counts the classified records and the failures, which add up to the page size, and reports the measured time in milliseconds and in seconds |
| BatchService.Progress | src/main/java/com/hanacard/service/VocBatchService.java:153 | progress times total is processed times 100 when total is positive, 0 when total is 0, and within [0, 100] when processed is at most total |
| BatchService.CountsPartition | src/main/java/com/hanacard/service/VocBatchService.java:144-146 | the unprocessed and processed counts add up to the total |
| BatchService.GetBatchStatus | src/main/java/com/hanacard/service/VocBatchService.java:139-153 | the counters are the table sizes, unprocessed plus processed is the total, and the progress is the formula's value, within [0, 100] |
| BatchService.BatchEffect | src/main/java/com/hanacard/service/VocBatchService.java:68-89 | after a run, a page record that classified is processed at now; a page record that failed is unchanged and still unprocessed; a record outside the page is untouched |
| BatchService.FailedRecordIsRetried | src/main/java/com/hanacard/service/VocBatchService.java:74-79 | a record whose classification fails is still among the unprocessed records afterwards |
| BatchService.SecondRunFindsNothing | src/main/java/com/hanacard/service/VocBatchService.java:53-79 | when the page held every unprocessed record and all of them classified, the next run's page is empty |
| BatchService.VocBatchService.ProcessVocBatch | src/main/java/com/hanacard/service/VocBatchService.java:43-108 | a page size below one or a failing page query becomes the "error" entry with its message and changes nothing; otherwise the table becomes the marked table for the fetched page and the summary is that page's summary; the normalized store is not touched |
| BatchService.VocBatchService.RunBatch | src/main/java/com/hanacard/service/VocBatchService.java:59-97 | for a fetched page the table becomes the marked table (unchanged for an empty page) and the summary is the page's summary; the normalized store is not touched |
| BatchService.VocBatchService.ProcessPage | src/main/java/com/hanacard/service/VocBatchService.java:68-89 | the loop marks exactly the page records that classify, counts them, and counts the rest as errors; processed plus errors is the page length |
| BatchService.VocBatchService.ClearNormalizedData | src/main/java/com/hanacard/service/VocBatchService.java:114-134 | reports the prior number of rows and leaves the store empty; a storage failure gives the error entry and deletes nothing |
| Controller.GetBigCategoryName | src/main/java/com/hanacard/controller/ClassificationController.java:383-402 | the result is always one of the six big categories, and "기타" for a null category |
| Controller.FirstRuleLabel | src/main/java/com/hanacard/controller/ClassificationController.java:389-401 | the result of an ordered rule table is the fallback or the label of one of its rules |
| Controller.FirstRuleLabelIsFirstHit | src/main/java/com/hanacard/controller/ClassificationController.java:389-401 | when no rule matches the result is the fallback, and when rule i is the first rule that matches the result is rule i's label |
| Controller.BigCategoryFollowsRuleTable | src/main/java/com/hanacard/controller/ClassificationController.java:389-401 | the roll-up is the first rule hit in the order 안내/조회, 신청/해제, 상품, 결제/한도, 도난/분실, with "기타" otherwise |
| Controller.EarlierKeywordPreemptsSecurity | src/main/java/com/hanacard/controller/ClassificationController.java:389-398 | a category holding any keyword of the first four rules never rolls up to "보안" |
| Controller.TaxonomyNeverRollsUpToSecurity | src/main/java/com/hanacard/controller/ClassificationController.java:389-398 | no name of the pipeline's built-in taxonomy rolls up to "보안" |
| Controller.RuleOrderExamples | src/main/java/com/hanacard/controller/ClassificationController.java:389-397 | "도난/분실 신청/해제" rolls up to "신청/해제", not "보안", and "상품 안내" to "조회/안내", not "상품" |
| Controller.TheftHasNoInquiryKeyword | src/main/java/com/hanacard/controller/ClassificationController.java:389 | "도난/분실 신청/해제" contains neither "안내" nor "조회" |
| Controller.ConvertToVocListItem | src/main/java/com/hanacard/controller/ClassificationController.java:351-362 | a row without a client age fails; otherwise the item copies id, source id, date, category, age, gender and analysis result, and adds the category's big category |
| Controller.AnalysisEntryCases | src/main/java/com/hanacard/controller/ClassificationController.java:150-161 | an entry is null when the analysis result is null, empty or unparseable, and the parsed value otherwise |
| Controller.GetVocNormalized | src/main/java/com/hanacard/controller/ClassificationController.java:134-174 | a limit below one fails with PageRequest's message; otherwise there is one entry per row of the first `limit` rows, in row order, each that row's analysis entry |
| Controller.WindowAsWrittenAdmitsNextDay | src/main/java/com/hanacard/controller/ClassificationController.java:289-298 | the query's inclusive upper bound admits the day after the end date, which the half-open window excludes |
| Controller.ListWindowIsRequestedDays | src/main/java/com/hanacard/controller/ClassificationController.java:289-290 | the half-open window from the start date's midnight to the midnight after the end date holds exactly the days from the start date to the end date |
| Controller.WindowAsWrittenDays | src/main/java/com/hanacard/controller/ClassificationController.java:289-298 | the window as written holds exactly the days from the start date to the day after the end date |
| Controller.WindowRows | src/main/java/com/hanacard/controller/ClassificationController.java:297-298 | the selected rows are given rows inside the window, and every given row inside the window is selected |
| Controller.WindowRowsAppend | src/main/java/com/hanacard/controller/ClassificationController.java:297-298 | the selection is the order-preserving filter: selecting from two runs of rows is selecting from each in turn, and a single row is kept exactly when its day is in the window |
| Controller.ConvertAll | src/main/java/com/hanacard/controller/ClassificationController.java:301-303 | the mapping succeeds exactly when every row has a client age, and then item i is row i's conversion |
| Controller.PageOf | src/main/java/com/hanacard/controller/ClassificationController.java:293-294 | a page holds `size` rows from the offset on, fewer at the end, none past it |
| Controller.PageIndex | src/main/java/com/hanacard/controller/ClassificationController.java:293 | `page - 1` in 32-bit arithmetic: equal to the exact difference modulo 2^32, and to the difference itself whenever that fits an `int` |
| Controller.PageRows | src/main/java/com/hanacard/controller/ClassificationController.java:293-298 | the page rows are drawn from the selected rows |
| Controller.GetVocListWithin | src/main/java/com/hanacard/controller/ClassificationController.java:280-318 | an end date of LocalDate.MAX fails first, as the day after it cannot be formed; then a page index below zero or a size below one fails with PageRequest's messages; then an offset `index * size` beyond the `int` range fails the query; on success the data are the converted rows of the requested page of the window's rows, the total counts every row in the window, page and size are echoed; a request that passes all these checks succeeds exactly when every row of its page has a client age |
| Controller.ListedRecordsInWindow | src/main/java/com/hanacard/controller/ClassificationController.java:296-303 | every listed record is the conversion of the page row at its position, and that row's day is in the window |
| Controller.GetVocList | src/main/java/com/hanacard/controller/ClassificationController.java:280-318 | with the window as written, every listed record is dated from the start date to the day after the end date, and the total counts the rows selected by that window |
| Controller.GetVocListIntended | src/main/java/com/hanacard/controller/ClassificationController.java:280-318 | with the half-open window, every listed record is dated from the start date to the end date, and the total counts the rows of those days |
| Controller.ListAsWrittenIncludesNextDay | src/main/java/com/hanacard/controller/ClassificationController.java:289-298 | for days 1 to 30 and one row dated day 31, the call as written lists and counts the row, and the intended call lists nothing |
| Controller.SmallestPageWrapsAround | src/main/java/com/hanacard/controller/ClassificationController.java:289-298 | the smallest `int` page is not rejected as negative: its index wraps around to the largest `int`; with size one the call succeeds with an empty page, with any larger size the offset overflows and the call fails, and an end date of LocalDate.MAX fails before the paging |
| Controller.FarPageFails | src/main/java/com/hanacard/controller/ClassificationController.java:293-298 | page 214750 at the default size 10000 starts beyond the `int` range, so the call fails instead of returning an empty page |
| Controller.LastDateFails | src/main/java/com/hanacard/controller/ClassificationController.java:289-290 | a request ending on LocalDate.MAX fails with the date error, both as written and with the intended window |

## Left out

- The OpenAI transport is left out: the chat-completion request, its timeout and its
  model settings (`EnhancedOpenAIService.java:143-169`, `OpenAIService.java:54-70`).
  - The call is a function from the prompt to a reply or an error message.
  - A null message content fails inside `callOpenAI`, so it is part of that error.
- The legacy classifier's system and user prompt texts are not modelled
  (`OpenAIService.java:93-128`). `LegacyClassifier.ClassifyConsultingContent` starts
  from the model's reply.
- Jackson's `readTree` and `readValue` turn text into a JSON tree. They are given as
  functions, and so is the lenient text-to-number conversion of `asDouble`.
- Exceptions are not modelled as Java exceptions.
  - Each failure is an error constructor (`ParseError`, `PipelineError`, `AdminError`,
    `ClassifierError`).
  - The text of the `RuntimeException` that wraps each failure is left out.
  - The messages of exceptions raised by the JVM or the persistence layer are stand-ins:
    `Controller.NULL_AGE_MESSAGE` for the null client age, `Controller.OFFSET_MESSAGE`
    for the offset beyond the `int` range, and `Controller.DATE_MESSAGE` for the day after
    LocalDate.MAX.
  - The batch's and the clear operation's "error" entries keep their message prefix.
- The clocks are parameters: `System.currentTimeMillis` and `LocalDateTime.now`. The
  processing time is an exact real division, not a `double`.
- BatchService.Progress is the exact real `processed * 100 / total`. The source computes
  the `double` `(double) processedCount / totalRawCount * 100`
  (`VocBatchService.java:153`), whose rounding is not modelled.
- AdminClient.AdminApiClient.CallAdminApiStrict takes one `now` per call. The source
  reads the clock separately in `isCacheValid` and in the cache update.
- BatchService.VocBatchService.ProcessVocBatch marks every record of one run with the
  same `processedAt`. The source reads the clock once per record.
- BatchService.VocBatchService.ProcessVocBatch takes the page query's failure as an
  input. Any other failure outside the loop is left out.
- BatchService.VocBatchService.ProcessVocBatch takes the pipeline as a function of the
  request. In the system this is `EnhancedService.ProcessSpec` with the run's
  collaborators.
- What is left of Spring Data:
  - The repositories are sequences of rows. The order that `Sort` or the database
    gives is the order of the given rows.
  - `vocRawRepository.save` is left out.
  - The `@Transactional` rollback and the JPA timestamps are left out.
- Controller.GetVocNormalized receives the category's rows. The source's
  `findByCategoryIdOrderByCreatedAtDesc` is not declared by the repository, and the entity
  has no category id, so the `category_id` filter is not modelled.
- The status query's `recentProcessed` rows and its own error entry
  (`VocBatchService.java:155-163`) are left out.
- `estimateProcessingCost` (`VocBatchService.java:171-198`) is floating-point cost
  arithmetic and is left out.
- EnhancedService.ProcessAndSaveConsultingContent takes the consulting content as a
  non-null text. The source fails on a null content at `EnhancedOpenAIService.java:68`
  before doing anything.
- The response fields the pipeline never sets are left out: `extracted_info`,
  `metadata` and `consulting_time`, and the analysis block's `urgency_level` and
  `priority_score` (`EnhancedClassificationResponse.java:195-199`).
- The interleaving of concurrent requests on the unsynchronised cache fields is not
  modelled. The cache is modelled sequentially.
- The list request's page and size are 32-bit integers, and `page - 1` wraps around
  (`Controller.PageIndex`). A null page or size is left out.
- Controller.GetVocListWithin fails when the page offset `index * size` exceeds
  `Integer.MAX_VALUE`, because the JPA query takes its first-result position as an `int`.
  This follows Spring Data JPA versions that reject such an offset. Versions that cast the
  offset to `int` instead are not modelled.
- Day numbers are unbounded integers, so days outside LocalDate's range are not excluded
  by type. A request's dates are LocalDates, and the one date arithmetic on them that can
  leave the range, `endDate.plusDays(1)` on LocalDate.MAX, fails the list call, as it does
  in the source (`Time.MAX_EPOCH_DAY`).
- The other integers are unbounded. Java's 32-bit batch counters and row counts are not
  modelled with wrap-around; their ranges are far beyond any page or batch size.
- Other parts are outside the core and left out:
  - the HTTP wrapping in `ResponseEntity`;
  - the health, test, detail and batch-trigger endpoints;
  - `ApiResponse`, `GlobalExceptionHandler` and the validation annotations;
  - `DashboardApiClient`;
  - the configuration classes.

## Findings

| source | as written | input that shows it | evidently intended | confidence | as-written member | corrected member |
|---|---|---|---|---|---|---|
| src/main/java/com/hanacard/controller/ClassificationController.java:289-298 | the upper bound is `endDate.plusDays(1).atStartOfDay()`, and it is passed to a derived `Between` query, which is inclusive at both ends | a request for 2024-01-01 to 2024-01-31 and a row dated 2024-02-01: the row is in the window | the half-open window [startDate 00:00, endDate+1 00:00), which holds exactly the requested days | medium, not executed | Controller.ListAsWrittenIncludesNextDay | Controller.GetVocListIntended |

The as-written window is `Controller.InListWindowAsWritten`; `Controller.GetVocList` uses
it, as the code does, and `Controller.WindowAsWrittenAdmitsNextDay` shows the day it adds.
The corrected window is `Controller.InListWindow`; `Controller.GetVocListIntended` uses it,
and `Controller.ListWindowIsRequestedDays` proves that it holds exactly the requested days.
