# api-to-sheets agent: a verified model of its deterministic core

The agent takes a French request such as "récupère 5 posts avec title et id" and runs it through five stages:

1. Pick the latest human request out of the conversation.
2. Ask a language model for query parameters, then correct its guess deterministically (`validate_extracted_params`).
3. Fetch posts from a JSON API, then filter and truncate them locally.
4. Keep only the requested fields.
5. Write the records to a Google Sheet and answer with a summary message.

The state threads through the stages as one dict. Every stage after parsing checks that dict's `error` key first; parsing does not read it.

This project models that core in Dafny. Every modelled function comes from one source file, `src/agent/graph.py`.

- `pyvalues.dfy` holds the Python values the pipeline handles:
  - a `Json` datatype, and dicts as association lists kept in insertion order;
  - `d.get`, `k in d`, `d[k] = v`, truthiness and `int()`;
  - `==` between a value and an int, `str()` of an int and `", ".join`.
- `querytext.dfy` holds the text tests:
  - `lower()` and the `\b(\d+)\b` scan;
  - the space-bounded keyword test and the substring test;
  - the greedy `\{.*\}` search that cuts the JSON object out of the model's reply.
- `validator.dfy` holds `validate_extracted_params`. It is a method that rewrites the guess key by key, with a loop that collects the mentioned fields. It is proved against specification functions for the limit, the fields, the filters and the description.
- `conversation.dfy` holds the message datatype and the backwards scan for the latest human request.
- `records.dfy` holds three pieces:
  - the id filters and the limit slice of the fetch stage;
  - the nested projection loops of `process_data`;
  - the header and data rows written to the sheet.
- `pipeline.dfy` holds the state.
  - The class `AgentState` has one field per key of the state dict. A key can be missing until `ensure_state_keys` fills it in.
  - It has one method per stage, and each method is proved against a stage function on a value view of the state.
  - `Run` chains the five stages.

The language model's reply, `json.loads`, the HTTP response and the outcome of the Google calls are parameters of the stage methods.

The model follows the code as written, including these behaviours:

- **Limit 0.** The guard at graph.py:176 rejects a guessed limit of 0 or below. A number taken from the query at graph.py:171-174 is not checked, so "récupère 0 posts" gets the limit 0 (`Validator.ZeroPostsLimit`).
- **JSON span.** The `\{.*\}` search at graph.py:144 is greedy and runs with DOTALL, so it takes everything from the first `{` to the last `}` of the reply (`QueryText.SearchJsonObject`). With two objects in the reply, the span holds both.
- **Filters.** At graph.py:265-267 only the filter keys `userId` and `id` are applied, and every other key is ignored. The filter value goes through `int()`, but the record's value does not. A record holding the string "1" therefore does not match the filter 1.
- **Empty export.** The guard at graph.py:321 returns without an error when there are no processed records and a sheet client exists. No sheet is created, and `sheets_url` stays "".
- **Overwritten error.** At graph.py:322-323 a missing client replaces an earlier error with "Google Sheets non configuré" (`Pipeline.ErrorShortCircuits`). The earlier error is therefore not the one the user sees.

## Model

| member | source | states |
|---|---|---|
| PyValues.Put | src/agent/graph.py:302 | `d[k] = v`: afterwards `d.get(k)` is `v` and every other key looks up as before. An existing key keeps its position and a new key goes last. A dict without repeated keys stays without repeated keys. |
| PyValues.PyInt | src/agent/graph.py:267 | `int(v)`: an int or bool gives its integer. A string converts exactly when it is an optionally signed decimal literal, surrounding whitespace allowed, and then gives the literal's value. None, lists and dicts raise. |
| PyValues.IntStringRoundTrip | src/agent/graph.py:232 | The model's `str()` of an int, used for the limit in the synthesised description, and its `int()` of a string are inverses: `int(str(n)) == n` for every integer n. |
| PyValues.StrArrayRoundTrip | src/agent/graph.py:207 | A list of field names stored in the dict reads back as the same names. |
| QueryText.FirstNumber | src/agent/graph.py:171-174 | Some number exactly when the query has a `\b\d+\b` match. The number is the decimal value of the leftmost match, and no match starts before it. |
| QueryText.KeywordTestIsSpaceBoundedWord | src/agent/graph.py:194-196 | The three-part keyword test holds exactly when the keyword occurs with a space or the end of the query on each side. The `startswith` and `endswith` parts add nothing. |
| QueryText.SearchJsonObject | src/agent/graph.py:144 | A match exists exactly when some `{` has a `}` after it. The match runs from the first `{` to the last `}`. |
| Validator.MentionedFieldsExact | src/agent/graph.py:184-197 | A field is in `mentioned_fields` exactly when one of its keywords is a space-bounded word of the lowered query. Each field appears once, in the table order title, id, userId, body, and only vocabulary names appear. |
| Validator.CollectMentionedFields | src/agent/graph.py:192-197 | The loop over the keyword table appends exactly the mentioned fields. |
| Validator.KeepVocabulary | src/agent/graph.py:221 | The filtered list holds only vocabulary names, and holds each name that the guess lists as a string. |
| Validator.KeepVocabularyKeepsValid | src/agent/graph.py:221 | A guess list made only of vocabulary names comes through the filter unchanged. |
| Validator.KeepVocabularyOrder | src/agent/graph.py:221 | Filtering keeps the guess's order. It distributes over concatenation, and keeps a single item exactly when it is a vocabulary name. So the result is the guess's vocabulary strings, in the guess's order, which becomes the sheet's column order. |
| Validator.KeepVocabularyCounts | src/agent/graph.py:220-223 | Filtering keeps each vocabulary name as often as the guess lists it, so duplicates are kept, and drops every other value. |
| Validator.ResolvedFields | src/agent/graph.py:206-223 | The final field list is never empty and never leaves the vocabulary. |
| Validator.ResolvedFieldsCases | src/agent/graph.py:206-223 | The three branches, stated in terms of the query: (1) a field is mentioned and a restriction marker is present: exactly the mentioned fields, in table order; (2) no field is mentioned: the whole vocabulary; (3) otherwise: the guess's filtered list, or the vocabulary if that is missing or empty. |
| Validator.ResolvedLimit | src/agent/graph.py:171-177 | The limit is an int at or above 0. |
| Validator.ValidateLimit | src/agent/graph.py:170-178 | Step 1 sets `limit` to the leftmost number of the query. Without a number it keeps a guessed int above 0, and otherwise sets 10. Every other key is unchanged. |
| Validator.ValidateFields | src/agent/graph.py:180-224 | Step 2 sets `fields` to the resolved list. Every other key is unchanged. |
| Validator.ValidateFilters | src/agent/graph.py:226-228 | Step 3 replaces `filters` with `{}` exactly when it is missing or not a dict. Every other key is unchanged. |
| Validator.ValidateDescription | src/agent/graph.py:230-232 | Step 4 keeps an existing description. A missing one is built from the limit and the fields. Every other key is unchanged. |
| Validator.ValidatedSpec | src/agent/graph.py:164-234 | The result of the four steps has an int limit ≥ 0, a non-empty field list within the vocabulary, dict filters and a description. Each of these equals its resolution from the guess and the query. Keys other than the four are untouched, and keys stay distinct. |
| Validator.ValidateExtractedParams | src/agent/graph.py:164-234 | The step methods, run in order on the guess, return exactly `Validated`, the result `ValidatedSpec` describes. |
| Validator.ZeroPostsLimit | src/agent/graph.py:171-174 | "récupère 0 posts" resolves to the limit 0, whatever the guess said. |
| Validator.RestrictionIsSubstringTest | src/agent/graph.py:202-203 | The restriction test is a substring test: "ajuster" passes through "juste". |
| Conversation.LatestHumanContent | src/agent/graph.py:62-74 | The query is the content of the last message that is a HumanMessage, or a dict with `type` 'human' and truthy `content`. No later message qualifies. With no such message the query is "". |
| Conversation.LatestHumanQuery | src/agent/graph.py:65-74 | The reverse loop with `break` returns exactly that query. |
| Records.FilterRecords | src/agent/graph.py:265-267 | The loop over the filter entries yields the function `ApplyFilters`. The first exception ends it. |
| Records.FiltersKeepSatisfying | src/agent/graph.py:263-267 | A loop that completes keeps exactly the records that satisfy every `userId`/`id` entry, in their original order. Other keys are ignored. |
| Records.FiltersFailWhen | src/agent/graph.py:265-267 | The loop raises exactly when it meets an id entry whose value `int()` rejects while records are still kept. An empty list never raises. |
| Records.Truncate | src/agent/graph.py:271 | `data[:n]` is a prefix of `data`, of length `min(n, len)` for n ≥ 0 and `max(len + n, 0)` for negative n. |
| Records.ProjectLookup | src/agent/graph.py:297-303 | A projected record holds exactly the keys that are both requested and present in the source record. Each holds the source value, and no key appears twice. |
| Records.ProjectIdempotent | src/agent/graph.py:297-303 | Projecting a projected record on the same fields changes nothing. |
| Records.ProjectAllIdempotent | src/agent/graph.py:297-305 | Projecting the output of `process_data` again with the same fields yields the same list. |
| Records.ProjectRecords | src/agent/graph.py:297-305 | The nested loops give one projected record per input record, in order, with the lookups above. |
| Records.LayoutRows | src/agent/graph.py:470-479 | No rows for no records. Otherwise N+1 rows: first a header with the first record's keys in its key order, then row i with record i's value under each header, or '' where it lacks the key. |
| Records.SheetLayoutUnique | src/agent/graph.py:472-479 | The rows are determined by the records: two row lists that both fit the layout are equal. |
| Pipeline.EnsureStateKeysSpec | src/agent/graph.py:566-574 | After `ensure_state_keys` every key is present. Present keys are kept, missing keys get their `get_initial_state` value, and a second call changes nothing. |
| Pipeline.AgentState.EnsureStateKeys | src/agent/graph.py:566-574 | The in-place fill leaves the state `WithDefaults` describes. |
| Pipeline.AgentState.Initial | src/agent/graph.py:553-563 | The initial state has all keys with their defaults, and the invariant holds. |
| Pipeline.AgentState.constructor | src/agent/graph.py:21-29 | A state handed in by the caller is taken as it is, with missing keys allowed, provided any `extracted_params` it holds already has the validated shape. |
| Pipeline.ParseOutcome | src/agent/graph.py:139-159 | The parse succeeds exactly when the model's call returned, its reply holds a `{…}` span, `json.loads` accepts the span, and the query is a string. The guess is then what `json.loads` returned. |
| Pipeline.ParseStageSpec | src/agent/graph.py:56-162 | Any failure sets only `error`, to "Erreur lors du parsing: " plus the exception text. The failures are: the model's call raised, no `{…}` span, `json.loads` failed, or the query is not a string. Otherwise the parameters are the validation of the parsed guess against the latest human query, `user_query` is that query, and nothing else changes. |
| Pipeline.AgentState.ParseUserQuery | src/agent/graph.py:56-162 | The method leaves exactly the state `ParseStage` gives, and the invariant holds. |
| Pipeline.FetchKeepsFilteredPrefix | src/agent/graph.py:263-271 | With validated parameters, a successful fetch stores a prefix of the records that satisfy the id filters, in API order. It holds at most `limit` records. |
| Pipeline.FetchFailsWhen | src/agent/graph.py:263-277 | With validated parameters and a response, the fetch fails exactly when the filter loop raises. |
| Pipeline.ZeroLimitFetchesNothing | src/agent/graph.py:270-271 | A limit of 0 stores an empty list whatever the API returned, as long as the id filters do not raise. If `int()` rejects a filter value at graph.py:267 while records remain, the fetch sets `error` instead. |
| Pipeline.FetchWithoutParams | src/agent/graph.py:270-271 | Without parameters the fetch keeps the first ten records. |
| Pipeline.AgentState.FetchApiData | src/agent/graph.py:237-279 | After filling in the keys, an earlier error leaves the state as it is. Otherwise an empty URL gets the default, and either `api_data` gets the filtered, truncated records or `error` gets "Erreur lors de la récupération API: " plus the exception text. |
| Pipeline.ProcessedRecords | src/agent/graph.py:290-305 | After `process_data` on fetched records, the list has one record per fetched record. Each holds exactly the requested fields its source has, with the source values, and projecting again changes nothing. |
| Pipeline.AgentState.ProcessData | src/agent/graph.py:281-312 | With an error, or no fetched records, the state is unchanged. Otherwise `processed_data` is the projection on the parameters' fields, or on the whole vocabulary without parameters. |
| Pipeline.AgentState.CreateGoogleSheet | src/agent/graph.py:315-498 | Without a sheet client, `error` becomes "Google Sheets non configuré". With an error or no records, nothing else changes. Otherwise the rows follow the layout and `sheets_url` is the new sheet's URL, or `error` gets "Erreur lors de la création du Google Sheet: " plus the exception text. |
| Pipeline.ErrorShortCircuits | src/agent/graph.py:321-324 | Once `error` is set, fetch and process change nothing. The sheet stage changes nothing when a client is configured, and otherwise replaces the error with its own. |
| Pipeline.FetchStage | src/agent/graph.py:237-279 | The fetch keeps every key present and the invariant. It never touches the messages or the parameters, and never clears an error. |
| Pipeline.ProcessStage | src/agent/graph.py:281-312 | Processing keeps every key present and the invariant. It never touches the messages or the parameters, and never clears an error. |
| Pipeline.SheetStage | src/agent/graph.py:315-498 | The sheet stage keeps every key present and the invariant. It never touches the messages or the parameters, and never clears an error. |
| Pipeline.ReplyReportsError | src/agent/graph.py:507-521 | The reply starts with "❌ Erreur: " exactly when the state carries an error, and then quotes it verbatim. |
| Pipeline.AgentState.GenerateResponse | src/agent/graph.py:501-524 | Exactly one message is appended: the error reply or the success summary (count, fields, limit, sheet URL). Nothing else changes. |
| Pipeline.BeforeSheet | src/agent/graph.py:533-543 | The state the sheet stage receives: parse, then fetch and process. All keys are present, the invariant holds, a reply can be built, and the conversation is as it started. |
| Pipeline.RunStages | src/agent/graph.py:527-547 | The five stages in order, on the state as a value. The conversation ends with the messages it started with, plus one reply built from the final state. |
| Pipeline.AgentState.Run | src/agent/graph.py:527-547 | The final state is `RunStages` of the starting state. The returned rows are the sheet layout of the records the sheet stage received when it exported, and none otherwise. The conversation gains exactly the one reply. |
| Pipeline.ProcessedCountAsWritten | src/agent/graph.py:514 | `len(state.get('processed_data', []))` as written raises exactly when `processed_data` is None. |
| Pipeline.EmptyFetchReachesLenOfNone | src/agent/graph.py:514 | A successful fetch that keeps nothing leaves `processed_data` at None with no error, and the reply's `len` then raises. |
| Pipeline.ProcessedCount | src/agent/graph.py:514 | The corrected count: the number of processed records, or 0 when processing was skipped. |
| Pipeline.EmptyFetchReportsZero | src/agent/graph.py:514 | With the corrected count, the same state gets a success reply that reports 0 posts. |

## Left out

- The language model, its prompt and `llm.invoke` (graph.py:78-141) are not modelled. The reply is a parameter: its text, or the text of the exception the call raised.
- `json.loads` (graph.py:146) is a function parameter from text to a dict or an error text. A JSON text that starts with `{` and parses is an object, so no other result is modelled.
- Nothing of `requests.get`, `raise_for_status` or `response.json()` is modelled. The fetch stage receives the decoded list of records, or an error text.
- A response body that is not a list of dicts is not modelled. In Python such a body need not raise: a list of non-dict items with no id filter passes graph.py:263-271 and reaches `process_data`.
- The Google Sheets and Drive calls are not modelled: the client setup, the folder search and creation, moving the sheet, sharing and `gc.create`. The sheet stage receives whether a client exists and the URL or exception text of the export, and returns the rows it writes.
- Pipeline.AgentState.CreateGoogleSheet: returns no rows when the export fails, although the source may have appended some rows before the exception.
- `datetime.now()` timestamps and every `print` are side effects only.
- The LangGraph graph construction (graph.py:527-550) is modelled only as the fixed order of the stages in `Run`.
- Floating-point JSON numbers are not modelled. The `Json` datatype has integers only, so `int(3.7)` and `1 == 1.0` comparisons are out.
- QueryText.FirstNumber: `\d` is an ASCII digit. `\b` bounds on ASCII and Latin-1 word characters, including the Latin-1 letters and the numerics ², ³, ¹, ¼, ½ and ¾. Python's Unicode digits and word characters beyond Latin-1 are not covered.
- QueryText.Lower: `lower()` maps only ASCII and Latin-1 capitals. Characters whose lower case has another length, such as U+0130, are not covered.
- PyValues.PyInt: `int()` of a string does not accept underscores or non-ASCII digits here, and ignores CPython's limit on digit count. Only ASCII whitespace is stripped.
- Validator.ResolvedLimit and Validator.ValidateExtractedParams: `int(numbers[0])` at graph.py:174 is subject to the same limit. CPython 3.11 and later reject a digit run longer than 4300 digits, and the `except` at graph.py:158 turns that into a parse error. The model always resolves the limit.
- PyValues.PyInt: the ValueError text wraps the string in single quotes. CPython prints the string's `repr()`, cut to 200 characters. The two differ for a string holding a quote, a backslash or a control character, and for a long string.
- The AttributeErrors on `lower` and `items`, and the TypeError of `int()` on None, lists and dicts, follow CPython's wording. Other exception texts are parameters.
- A HumanMessage's content is a string here. LangChain also allows a list of content blocks.
- Pipeline.AgentState.GenerateResponse: requires an error or extracted parameters. With neither, the f-string at graph.py:511-521 raises. If `processed_data` is None (its default), `len(None)` at graph.py:514 raises TypeError first. If it is a list, `None.get` at graph.py:515 raises AttributeError. `Run` never reaches that state, because parsing either sets the parameters or sets an error.
- Pipeline.AgentState.GenerateResponse: reports the corrected count from "## Findings". When `processed_data` is None and there is no error, graph.py:514 raises TypeError and appends no reply. The model appends a reply that counts 0 posts.
- Pipeline.RunStages and Pipeline.AgentState.Run: inherit the corrected count. On an empty fetch (limit 0, or filters that match nothing) with a configured sheet client, graph.py:514 raises TypeError and the graph adds no reply. The model instead ends with a reply that counts 0 posts.
- Pipeline.AgentState.ProcessData: the exception branch of graph.py:308-310 is not modelled. Under the state invariant the fields are a list of strings and the records are dicts, so nothing in the loop raises.
- Pipeline.AgentState.constructor: requires that any `extracted_params` the caller supplies has the shape validation gives, whereas the source accepts any dict there. Nothing observable is lost. In `Run` the constructed state goes to parsing first, which either replaces the parameters or sets an error. With an error set, the later stages never read the parameters, and the reply quotes only the error.
- Validator.ValidateExtractedParams returns the rewritten dict instead of mutating the caller's. The only caller passes a dict nobody else holds, so the difference cannot be observed.
- A dict holds each key once. Lookups use a key's first entry, as Python's single entry would be.
- Repeated keys in the dicts `json.loads` returns are not modelled, including nested objects such as `filters`. `json.loads` keeps only the last value of a repeated key. The model takes the entries as given, so the filter loop would apply every entry of a repeated key.

## Findings

| source | as written | input that shows it | evidently intended | confidence | as-written member | corrected member |
|---|---|---|---|---|---|---|
| src/agent/graph.py:514 | `len(state.get('processed_data', []))`. After `ensure_state_keys` the key is always present, so a `processed_data` left at None reaches `len()`. | The query "récupère 0 posts" with a configured sheet client. The limit becomes 0, so the fetch keeps nothing. `process_data` skips an empty list, so `processed_data` stays None. The sheet stage skips without error, and `generate_response` raises TypeError. | Report 0 processed posts, as the `[]` default shows. | not executed | Pipeline.ProcessedCountAsWritten, Pipeline.EmptyFetchReachesLenOfNone | Pipeline.ProcessedCount, Pipeline.EmptyFetchReportsZero |
