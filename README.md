# Semantic Recipe Finder — a Dafny model of its search and detail path

Semantic Recipe Finder answers a free-text query with the recipes whose
embeddings are closest to it. The backend has several parts:

- It cleans the query.
- It embeds the query and asks a Chroma vector collection for the 100
  nearest recipe ids.
- It builds a summary card for each hit from the recipe table.
- It returns one page of hits through `POST /search`.
- `GET /recipe/{id}` returns the full detail of one recipe.

A Streamlit front end keeps the hits shown so far in its session state.
It fetches further pages with "Load more" and draws each hit as a card.

This project models that path in Dafny, one module per source file:

| module | source | form |
|---|---|---|
| `DataPreprocessor` | `app/utils/data_preprocessor.py` | functions and lemmas |
| `VectorStore` | `app/services/vectorstore.py` | class `Store` for the module globals `_client` and `_collection`; the batch loop as a `while` loop |
| `SearchServices` | `app/services/search_service.py` | class `SearchService`; its loops as `for` loops |
| `DetailServices` | `app/services/detail_service.py` | class `DetailService`; the row dict as a local that is updated step by step |
| `SearchApi` | `app/api/search.py` over the globals of `app/core/config.py` | class `Config`; the endpoints as methods |
| `SearchPage` | `frontend/pages/search.py` | class `SearchState` for the session state; the mapping loop as a `for` loop |
| `RecipeCardView` | `frontend/components/recipe_card.py` | functions |
| `Utility` | `frontend/utils/utility.py` | functions |

Supporting modules:

- `Values`: Python values as JSON-shaped data, and dict lookup, `d[k] = v` and `setdefault`.
- `Text`: `str.isspace`, `strip`, `split` and `splitlines`.
- `Decimal`: `str(int)` and `int(str)`.
- `Models`: the pydantic records and their field validation, and the recipe table.

Every stateful method is proved against a pure function of the old state
and its inputs. The properties the code promises are then proved as
lemmas about those functions.

Things the code calls but the model cannot see are parameters:

- the sentence-transformer embedding (`embed`);
- the Chroma nearest-neighbour query (`nn`);
- the two HTTP calls of the front-end client (`search`, `getRecipe`).

A failed HTTP request answers `null`, as `frontend/api/client.py` does.

## Model

| member | source | states |
|---|---|---|
| DataPreprocessor.CollapseSpaces | app/utils/data_preprocessor.py:24 | each whitespace run becomes exactly one space: the non-whitespace characters are kept, all of them and in order; the output has no two neighbouring spaces; it starts with a space exactly when the input starts with whitespace, and is empty only for empty input |
| DataPreprocessor.CollapseAppend | app/utils/data_preprocessor.py:24 | no whitespace run crosses a cut after a non-space character: the two sides collapse on their own |
| DataPreprocessor.CollapseRun | app/utils/data_preprocessor.py:24 | a whole whitespace run, of any length and any whitespace characters, becomes exactly one space, and the text on either side is collapsed as if alone |
| DataPreprocessor.CleanText | app/utils/data_preprocessor.py:18-25 | None and "" give ""; the result is never longer than the text |
| DataPreprocessor.CleanTextKeepsCharacters | app/utils/data_preprocessor.py:20-25 | apart from its spaces, the cleaned text is the lower-cased input with the digits, underscores and punctuation taken out, nothing else removed and the order kept |
| DataPreprocessor.CleanTextIsClean | app/utils/data_preprocessor.py:6-25 | a cleaned query has only spaces and lower-case word characters, with no digit or underscore, no space at either end and no double space |
| DataPreprocessor.CleanTextIdempotent | app/utils/data_preprocessor.py:6-25 | cleaning an already cleaned query changes nothing |
| DataPreprocessor.DeletedCharJoinsNeighbours | app/utils/data_preprocessor.py:21-23 | a digit, underscore or punctuation mark is deleted without leaving a space: the text cleans as if the character were not there |
| DataPreprocessor.WordsKeepOneSpace | app/utils/data_preprocessor.py:20-24 | two words separated by any whitespace run come out separated by exactly one space: the text cleans to the first part cleaned, " ", and the second part cleaned |
| DataPreprocessor.OnlyDeletedGivesEmpty | app/utils/data_preprocessor.py:18-23 | text made only of digits, punctuation and underscores cleans to "" |
| Utility.NormalizeToList | frontend/utils/utility.py:6-31 | None gives []; a list gives str() of each item in order; a string containing '\|' is split at the bars; a string with ',' and no '\|' is split at the commas; the pieces are stripped and blanks dropped; any other string gives [s]; any other value gives [str(v)] |
| Utility.Str | frontend/utils/utility.py:21-29 | str() of a string is the string, of an integer text that int() reads back as it, of a list "[...]" and of a dict "{...}" |
| Utility.Repr | frontend/utils/utility.py:21 | repr() of a string is the string in quotes; of anything else it is str() |
| Utility.NormalizeSplits | frontend/utils/utility.py:23-26 | a string with a bar, or with a comma and no bar, is split at that delimiter, stripped, and blanks dropped |
| Utility.SplitTrimmed | frontend/utils/utility.py:24-26 | every piece is non-empty, has no whitespace at either end, does not contain the delimiter, and uses only characters of the input |
| Utility.BarsTakePriority | frontend/utils/utility.py:23-24 | with a bar present the string is cut only at bars: the bar-free pieces rejoined with the bars give the string back, so commas stay inside the tags |
| Utility.CommasWithoutBars | frontend/utils/utility.py:25-26 | without bars but with a comma the string is cut at commas, with the same round trip |
| Text.SplitOnRejoin | frontend/utils/utility.py:24 | splitting loses nothing: the pieces rejoined with the delimiters give back the string |
| Text.Strip | app/utils/data_preprocessor.py:24 | no longer than its input and with no whitespace at either end |
| Text.StripSlice | app/utils/data_preprocessor.py:24 | the stripped text is a contiguous slice of the input with only whitespace before and after it |
| Text.SplitOn | frontend/utils/utility.py:24 | one piece more than there are delimiters, and no piece contains a delimiter |
| Text.StripIdempotent | frontend/utils/utility.py:24 | stripping a second time removes nothing more |
| Decimal.ParseFromInt | app/services/vectorstore.py:99 | int(str(n)) == n for every integer id |
| Decimal.FromIntInjective | app/services/vectorstore.py:99 | different ids get different id strings |
| Decimal.ParseAll | app/services/vectorstore.py:158 | on success one integer per string; on failure it names a string of the list that is not an integer |
| Decimal.ParseAllFailure | app/services/vectorstore.py:158 | a failed parse names the first string of the list that is not an integer: every string before it parses |
| Decimal.ParseAllValues | app/services/vectorstore.py:158 | on success the i-th integer is the value of the i-th string |
| Decimal.ParseAllOk | app/services/vectorstore.py:158 | strings that each parse to the matching integer parse together to that list |
| Decimal.ParseIntAccepts | app/services/vectorstore.py:158 | int() accepts only text that, stripped, starts with a sign or a digit, and a negative value comes from a leading minus |
| Decimal.FromInt | app/services/vectorstore.py:99 | str(n) is non-empty, starts with a minus exactly when n is negative, and for n >= 0 is all digits with no leading zero |
| Decimal.FormatParseAll | app/services/vectorstore.py:99 | the ids written as strings parse back to the same ids in the same order |
| Models.MinimalCard | app/models/recipe_card.py:11-20 | RecipeCard(recipe_id=id): the id, keywords [] and every other field None |
| Models.FirstRow | app/services/search_service.py:135-139 | the first row of the table whose index value is the id; None exactly when no row has it |
| Models.CardFromDict | app/models/recipe_card.py:11-20 | a card validated from a dict carries that dict's integer recipe_id |
| Models.DetailFromDict | app/models/recipe_detail.py:7-26 | a detail validated from a dict carries that dict's integer recipe_id |
| VectorStore.AddBatch | app/services/vectorstore.py:119-122 | add() succeeds exactly when there are as many embeddings as ids, and appends one batch holding both |
| VectorStore.BuildOutcome | app/services/vectorstore.py:104-122 | the batch loop succeeds exactly when there are at least as many embeddings as ids; then the batches hold all ids in order with their embeddings, each batch except the last holds 2000 items, and none is empty |
| VectorStore.BuildFrom | app/services/vectorstore.py:113-126 | the loop from a given slice on keeps the collection's name and space and the batches added before; a refused batch stops it with the collection left so far; success returns the collection the loop left behind |
| VectorStore.BuildFromEnough | app/services/vectorstore.py:113-122 | from any point of the loop with enough embeddings, the remaining slices complete the ids and embeddings in order |
| VectorStore.BuildFromShort | app/services/vectorstore.py:113-122 | with fewer embeddings than ids some batch is refused |
| VectorStore.LoadIsCached | app/services/vectorstore.py:71-73 | once a collection is cached every later load returns it and changes nothing; a successful load caches what it returns |
| VectorStore.LoadOutcome | app/services/vectorstore.py:59-126 | a cached collection is returned as it is; otherwise a client is set; a successful load caches what it returns; the only errors are missing embedding files, which cache nothing, and a refused batch |
| VectorStore.ClientCreatedOnce | app/services/vectorstore.py:40-56 | a load that finds no cached collection leaves a client set, and a client that was set is never replaced |
| VectorStore.MissingFilesRaise | app/services/vectorstore.py:87-90 | with no stored collection and a missing embedding file the load raises FileNotFoundError and caches nothing |
| VectorStore.BuiltIdsRoundTrip | app/services/vectorstore.py:99-122 | a collection built from the files holds id strings that parse back to the stored integer ids |
| VectorStore.ExtractFirstRow | app/services/vectorstore.py:154-158 | missing or empty ids give no ids and the first distance row; missing or empty distances give []; otherwise the ids are the first id row, each parsed in order, and the distances the first distance row; a failed parse names the first id of the row that is not an integer |
| VectorStore.Extract | app/services/vectorstore.py:154-158 | on success as many ids as the first id row and the first distance row; on failure a string of the first id row that does not parse as an integer |
| VectorStore.SearchOutcome | app/services/vectorstore.py:129-161 | the store afterwards is the one the load leaves; a failed load is passed on; a success means the load and the query succeeded and the result is the extraction of the query's answer |
| VectorStore.Store.constructor | app/services/vectorstore.py:27-29 | the module starts with no client and no collection |
| VectorStore.Store.GetClient | app/services/vectorstore.py:32-56 | returns the cached client or caches a new one on the persist directory; an existing client is kept |
| VectorStore.Store.AddInBatches | app/services/vectorstore.py:110-122 | the while loop over slices of 2000 leaves the result and collection that the batch-loop function describes |
| VectorStore.Store.LoadOrBuildCollection | app/services/vectorstore.py:59-126 | the outcome and the new globals are those of the load function, so the load lemmas apply |
| VectorStore.Store.SearchCollection | app/services/vectorstore.py:129-161 | loads the collection, queries it, and extracts the first row; the new globals are those of the load |
| SearchServices.OrElse | app/services/search_service.py:41-42 | the argument when given, else the config's value |
| SearchServices.CardFor | app/services/search_service.py:120-154 | the card always carries the id asked for; an id not in the index, or a table without all card columns, gives the minimal card |
| SearchServices.CardShowsFirstRow | app/services/search_service.py:130-154 | for an indexed id the card is built from the first row with that id when its cells validate, and is the minimal card otherwise |
| SearchServices.CardDictFields | app/services/search_service.py:132-143 | the dict a card is validated from holds the id asked for and each card column's cell |
| SearchServices.CardFromCells | app/services/search_service.py:142-146 | validating that dict succeeds exactly when the row's cells have the card's types, and gives the card of those cells |
| SearchServices.LastCard | app/services/search_service.py:190 | the card map's entry for an id is a card with that id; there is none exactly when no card has that id |
| SearchServices.CardsMatchIds | app/services/search_service.py:183-195 | with a usable table, the card map finds for each hit the card built for that hit's id |
| SearchServices.Hits | app/services/search_service.py:193-202 | there are as many results as the shorter of the ids and the distances |
| SearchServices.PairedHits | app/services/search_service.py:193-202 | results pairing each id with its distance and its mapped card, in order, are the hit list |
| SearchServices.SameCleanSameSearch | app/services/search_service.py:70-78 | two non-blank queries that clean to the same text search identically |
| SearchServices.SearchOutcome | app/services/search_service.py:44-81 | a blank query gives ([], []) and the same store; no model gives "Model not initialized"; a failed embedding gives EmbeddingFailed; otherwise the store is searched for the top_k nearest to the embedding of the cleaned query, and its answer is returned with its store, a store error wrapped as StoreFailed; a non-blank query is seen only through its cleaned text |
| SearchServices.SearchCleaned | app/services/search_service.py:65-81 | for a non-blank query: no model, or a failed embedding, is reported without touching the store; otherwise the outcome is the store's search for top_k with the embedded vector, its error wrapped as StoreFailed, and the store it leaves |
| SearchServices.SearchService.constructor | app/services/search_service.py:33-42 | the model and table given, or else the config's |
| SearchServices.SearchService.Search | app/services/search_service.py:44-81 | the outcome and new store are those of the search function: a blank query gives ([], []) without touching the store; no model raises "Model not initialized"; a failed embedding is reported; otherwise the cleaned query's embedding is searched for top_k, and store errors are passed on |
| SearchServices.SearchService.GetRecipeCards | app/services/search_service.py:83-157 | with no table or an empty table []; otherwise exactly one card per id, in order, each carrying its id |
| SearchServices.CardsFor | app/services/search_service.py:83-157 | [] without a usable table; otherwise one card per id, in order, each carrying its id |
| SearchServices.SearchService.SearchResults | app/services/search_service.py:159-205 | a failed search is passed on; otherwise the hits pair each id with its distance and its card; the store changes as the search changes it |
| SearchServices.Pair | app/services/search_service.py:190-202 | the card-map and zip loops give, for each position up to the shorter list, the id, its distance and the last card with that id |
| DetailServices.Lines | app/services/detail_service.py:67-68 | the instruction lines are non-empty, stripped and free of line breaks, and use only characters of the text |
| DetailServices.LinesOfText | app/services/detail_service.py:67-68 | the pieces between line breaks rejoin to the text, and when none is blank there is one line per piece, each the piece stripped, in order |
| DetailServices.DetailDict | app/services/detail_service.py:54-68 | the row dict carries recipe_id set to the id asked for |
| DetailServices.DetailFor | app/services/detail_service.py:30-74 | a detail always carries the id asked for; no table, or an id not in the index, gives None |
| DetailServices.DetailDictKeepsCells | app/services/detail_service.py:48-61 | every column other than recipe_id and the instructions reaches validation as it is in the first row |
| DetailServices.DetailDictDefaults | app/services/detail_service.py:60-61 | keywords and ingredients become [] only when the row has no such column |
| DetailServices.DetailDictInstructions | app/services/detail_service.py:63-68 | the instructions become [] when missing or null, become the non-blank stripped lines when a string, and are otherwise unchanged |
| DetailServices.InstructionsAsLines | app/services/detail_service.py:63-71 | a recipe whose instructions are text gets those lines as its instruction list |
| DetailServices.MissingInstructionsEmpty | app/services/detail_service.py:63-65 | missing or null instructions give the empty instruction list |
| DetailServices.KeywordsDefaultEmpty | app/services/detail_service.py:60 | a table without a keywords column gives the empty keyword list |
| DetailServices.NullIngredientsRejected | app/services/detail_service.py:61-74 | a null ingredients cell fails validation, so there is no detail |
| DetailServices.DetailShowsFirstRow | app/services/detail_service.py:48-54 | name and description come from the first row with the id |
| DetailServices.DetailService.constructor | app/services/detail_service.py:20-28 | the table given, or else the config's table |
| DetailServices.DetailService.GetRecipeDetails | app/services/detail_service.py:30-74 | the step-by-step row-dict updates give the detail function's result: the id asked for, or None without a table or an indexed id |
| SearchApi.Config.constructor | app/core/config.py:14-19 | the loaded resources, and no service created yet |
| SearchApi.Page | app/api/search.py:71 | the slice [offset : offset + limit]: its length, its elements at their shifted positions, and [] past the end |
| SearchApi.PagesAdjoin | app/api/search.py:71 | two neighbouring pages together are the page spanning both |
| SearchApi.PagesCover | app/api/search.py:70-71 | the first k pages of one size, from offset 0, are exactly the first k * limit hits in order |
| SearchApi.SearchReply | app/api/search.py:20-81 | parameters out of bounds give 422; in bounds but resources not ready give 503 with Retry-After 10; a failed pipeline gives 500 "Search execution failed"; otherwise 200 with the full count, the request's offset and limit, and the slice [offset : offset + limit] of the hits |
| SearchApi.PagingIsConsistent | app/api/search.py:64-81 | the total count of the reply does not depend on the offset, and the replies' hits at offsets 0, limit, 2 * limit, ... up to the end, put together, are every hit in order |
| SearchApi.ServedRest | app/api/search.py:70-71 | the replies from any offset on, one page after the other, give every hit from that offset on |
| SearchApi.DetailReply | app/api/search.py:84-117 | 500 exactly when the table is missing; 404 for an id not in the index; 404 for an indexed id whose detail service returns nothing; 200 exactly when the table has the id and the service returns a detail, and then with that detail |
| SearchApi.DetailReplyMatchesId | app/api/search.py:101-117 | a 200 reply carries the recipe asked for; an indexed id with no detail gives 404 |
| SearchApi.PipelineIgnoresPage | app/api/search.py:64-71 | the pipeline is always asked for the top 100 hits, so two requests for different pages of one query both succeed or both fail, leave the same store, and on success are the two slices of one hit list whose length is the total count |
| SearchApi.PipelineReply | app/api/search.py:63-81 | the store afterwards is the search's; for parameters in bounds a failed search replies 500 "Search execution failed", and a successful one replies 200 with the page [offset : offset + limit] of its hits and their total count |
| SearchApi.Search | app/api/search.py:20-81 | out-of-bounds parameters or missing resources reply without creating a service or touching the store; otherwise the search service is created once and reused, and the reply and new store are those of the pipeline reply, which is 500 on a failed search and otherwise the page of the hits |
| SearchApi.RunPipeline | app/api/search.py:63-81 | the reply and new store are those of the pipeline reply: a failed search becomes 500, and a successful one the page [offset : offset + limit] of its hits with their total count |
| SearchApi.GetRecipeDetail | app/api/search.py:84-117 | no table or an unknown id replies before any service is created; otherwise the detail service is created once and reused, and its detail decides between 404 and 200 |
| SearchPage.Iterate | frontend/pages/search.py:41 | iterating a list gives its items and a string or dict gives strings; any other value raises |
| SearchPage.Items | frontend/pages/search.py:34-38 | a dict's "search_results" iterated (a dict without them gives []), a list itself, and [] for anything else, a failed request included |
| SearchPage.MapItem | frontend/pages/search.py:41-56 | an item adds nothing exactly when it is not a dict or has no recipe_id; otherwise it adds its truthy card dict, else the fetched detail dict, else the placeholder, each with the item's similarity score set; a truthy card that is not a dict raises |
| SearchPage.MapItems | frontend/pages/search.py:40-56 | a batch has at most one entry per item |
| SearchPage.Fetch | frontend/pages/search.py:33-56 | the reply's items mapped one by one, or the error of iterating or mapping them; a failed request gives an empty batch; at most one entry per item |
| SearchPage.Placeholder | frontend/pages/search.py:56 | the placeholder carries the id under "id" and "recipe_id", and the score |
| SearchPage.MapItemsErrSticks | frontend/pages/search.py:41-56 | once an item raises, the whole batch raises that error |
| SearchPage.MapItemsAppend | frontend/pages/search.py:41-56 | the batch of the items followed by one more item is the batch of the items followed by that item's entry, if it has one, or that item's error |
| SearchPage.BatchEntriesScored | frontend/pages/search.py:40-56 | every entry of a batch is a dict with the score of an identified item of the reply |
| SearchPage.BatchKeepsIdentifiedItems | frontend/pages/search.py:40-56 | when every item is a dict with an id, each adds exactly one entry, and the k-th entry is the one the k-th item gives |
| SearchPage.FailedRequestFinishes | frontend/pages/search.py:33-38 | a failed request gives an empty batch, which marks the page finished and leaves the results as they were |
| SearchPage.Absorb | frontend/pages/search.py:58-60 | the batch is appended after the results already shown, the offset is kept, and finished becomes true when the batch is shorter than a page |
| SearchPage.NewSearchStep | frontend/pages/search.py:29-60 | offset 0; when the fetch succeeds the results are its batch alone and finished says whether it was short of a page; a failed fetch leaves no results and not finished |
| SearchPage.LoadMoreStep | frontend/pages/search.py:83-111 | the offset moves on by one page; when the fetch succeeds its batch is appended and finished also becomes true when it was short of a page; a failed fetch changes nothing else |
| SearchPage.Step | frontend/pages/search.py:6-111 | the state is initialised after every run; without a new search and without a shown and clicked "Load more" the run only initialises |
| SearchPage.StepOffset | frontend/pages/search.py:30-85 | after a run the offset is the starting offset (0 for a new search or a new session) or one page beyond it |
| SearchPage.FirstRenderInitialises | frontend/pages/search.py:20-23 | the first run creates results [], offset 0 and finished False |
| SearchPage.NewSearchStartsOver | frontend/pages/search.py:29-60 | a search with a non-blank query starts over at offset 0 with its first batch alone; finished says whether that batch was shorter than a page |
| SearchPage.BlankQueryChangesNothing | frontend/pages/search.py:29 | a click with a blank query changes nothing |
| SearchPage.LoadMoreAppends | frontend/pages/search.py:83-111 | "Load more" moves the offset on by one page and appends the new batch after the results already shown |
| SearchPage.OnlyNewSearchResets | frontend/pages/search.py:62-111 | without a new search the results only grow at the end, and a finished page stays exactly as it is |
| SearchPage.OffsetStaysMultiple | frontend/pages/search.py:85 | the offset is always a whole number of pages |
| SearchPage.MapBatch | frontend/pages/search.py:40-56 | the mapping loop gives the batch of the item list, or the first error |
| SearchPage.FetchBatch | frontend/pages/search.py:33-56 | one request and the batch it gives |
| SearchPage.SearchState.constructor | frontend/pages/search.py:20 | a new session has none of the page's keys |
| SearchPage.SearchState.Render | frontend/pages/search.py:6-111 | one run moves the session state as the step function says, so the page lemmas hold of it |
| SearchPage.SearchState.StartSearch | frontend/pages/search.py:29-60 | the reset and first-page fetch of a new search |
| SearchPage.SearchState.LoadMore | frontend/pages/search.py:84-111 | the offset advance and next-page fetch of "Load more" |
| RecipeCardView.Shorten | frontend/components/recipe_card.py:23 | at most 153 characters, ending in "..."; before the dots is the first 150 characters cut just before their last space, or all 150 when they have no space |
| RecipeCardView.ShownDescription | frontend/components/recipe_card.py:21-24 | a string description over 150 characters is shortened; anything else is shown unchanged |
| RecipeCardView.RawTags | frontend/components/recipe_card.py:26 | truthy keywords, else truthy tags, else [] |
| RecipeCardView.ShownTags | frontend/components/recipe_card.py:26-29 | the first min(20, n) of the normalised tags, in order |
| RecipeCardView.ListTagsShown | frontend/components/recipe_card.py:26-29 | a non-empty keyword list shows str() of its first 20 keywords, in order |
| RecipeCardView.ButtonId | frontend/components/recipe_card.py:51 | the truthy "id", else "recipe_id" |
| RecipeCardView.CardKeyedByRecipeId | frontend/components/recipe_card.py:51-52 | a card from the API is keyed "detail-" plus its recipe id, and cards with different recipe ids get different button keys |

## Left out

- Character classes: `\d` is taken as the ASCII digits and `str.lower` as the ASCII case mapping. Any other non-whitespace character counts as a word character. Unicode digit, letter and case tables are not part of this model.
- `str.splitlines` is modelled as a split at each line-break character. A `\r\n` pair therefore gives an extra empty piece, which the non-blank filter drops, so the instruction lines are the same.
- `int(str)`: digit-group underscores and non-ASCII digits are not accepted by the model's parser. Chroma only returns the ids it was given, which are plain decimal strings.
- Floats are carried as opaque values. No float arithmetic happens on the modelled path. `float(distance)` is the identity on them, and the calorie rounding of the card display is not modelled.
- `repr()` of strings is simplified to single quotes with no escaping. It only matters for `str()` of a list tag that contains strings.
- Pydantic validation is modelled as strict type checks: null or the field's JSON type, with an int accepted for a float. Coercions such as "3" to 3 are not modelled. pandas NaN cells are modelled as null.
- The sentence-transformer embedding and the query normalisation in `search_collection` are oracles: `embed` and `nn`. `embed` answers nothing when `vectorize_text` raises (an unsupported model, or `encode` failing); the search then reports `EmbeddingFailed`, which `POST /search` answers with 500 like any other failed search. Which exception was raised is not modelled. Chroma's index, distance computation and persistence are not modelled. A stored collection is an input (`Disk.persisted`). Any exception from the query is `QueryFailed`.
- File I/O is not modelled. The `.npy` files are inputs (`Disk.idsFile`, `Disk.embeddingsFile`). `os.makedirs` and the client settings are not modelled.
- Logging, Streamlit drawing (the card's markdown, columns and metrics) and the detail callback of `frontend/pages/search.py` (lines 62-81) are not modelled. The "Load more" button click is an input of `Render`.
- The HTTP client is an oracle that answers `null` on any failure. Network, timeouts and JSON decoding are not modelled.
- FastAPI's 422 body is simplified to a fixed detail string. Query validation is folded into `SearchApi.SearchReply`.
- The deprecated `chroma_collection` argument of `SearchService` is not a parameter of the model, because the service never reads it. `config.chroma_collection` is only checked for presence by `POST /search`.
- Dicts with duplicate keys cannot arise from the modelled code. `Lookup` returns the first entry.
- RecipeCardView.ShownDescription: a description that is not a string is shown unchanged. In the source a truthy number makes `len()` raise, and a list longer than 150 makes `rsplit` raise, as does slicing a dict longer than 150 (frontend/components/recipe_card.py:22-23); the page then catches the error and writes the raw record in place of the card (frontend/pages/search.py:80-81). That fallback is drawing, which is not modelled.
- VectorStore.AddBatch: Chroma's `add` is modelled as refusing a batch only when the ids and embeddings differ in number. Its refusal of an id repeated within one batch, its handling of ids already in the collection and its check of the embedding dimension are not modelled, because the collection's index is not.
- VectorStore.BuildOutcome: "succeeds exactly when there are at least as many embeddings as ids" holds of the modelled `add`. With Chroma, an ids file that repeats an id within one batch of 2000, or embeddings of differing dimensions, also make the build raise.
- Concurrency between requests is not modelled. Each endpoint call runs alone on the globals.
- `app/services/loading_service.py` (startup loading of the table and model) is not part of this model. The config's resources are constructor arguments.
