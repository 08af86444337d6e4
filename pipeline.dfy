/**
 * The agent's state and its five stages (graph.py:56-574): parse the request,
 * fetch the posts, project the requested fields, upload them to a sheet, and
 * answer. The state dict LangGraph passes from stage to stage is a class whose
 * fields are its keys; a key the caller left out is Absent until
 * ensure_state_keys fills it in. The language model's reply, json.loads, the
 * HTTP response and the outcome of the sheet upload come in as parameters.
 */
module Pipeline {
  import opened Wrappers
  import opened PyValues
  import opened QueryText
  import opened Validator
  import opened Conversation
  import opened Records

  /** A key of the state dict, which may be missing. */
  datatype Slot<T> = Absent | Present(value: T)

  function SlotOr<T>(s: Slot<T>, default: T): T
  {
    if s.Present? then s.value else default
  }

  /** The state dict's keys, as a value. */
  datatype StateView = StateView(
    messages: Slot<seq<Message>>,
    apiUrl: Slot<string>,
    userQuery: Slot<string>,
    extractedParams: Slot<Option<Dict>>,
    apiData: Slot<Option<seq<Dict>>>,
    processedData: Slot<Option<seq<Dict>>>,
    sheetsUrl: Slot<string>,
    error: Slot<string>)

  const DefaultApiUrl: string := "https://jsonplaceholder.typicode.com/posts"

  /** get_initial_state() (graph.py:553-563) */
  function InitialView(): StateView
  {
    StateView(Present([]), Present(DefaultApiUrl), Present(""), Present(None), Present(None),
              Present(None), Present(""), Present(""))
  }

  /** Every key is present. */
  predicate Complete(v: StateView)
  {
    && v.messages.Present? && v.apiUrl.Present? && v.userQuery.Present? && v.extractedParams.Present?
    && v.apiData.Present? && v.processedData.Present? && v.sheetsUrl.Present? && v.error.Present?
  }

  function Fill<T>(s: Slot<T>, default: Slot<T>): Slot<T>
  {
    if s.Absent? then default else s
  }

  /** The state ensure_state_keys (graph.py:566-574) leaves behind, as a value. */
  function WithDefaults(v: StateView): (w: StateView)
    ensures Complete(w)
  {
    var init := InitialView();
    StateView(Fill(v.messages, init.messages), Fill(v.apiUrl, init.apiUrl), Fill(v.userQuery, init.userQuery),
              Fill(v.extractedParams, init.extractedParams), Fill(v.apiData, init.apiData),
              Fill(v.processedData, init.processedData), Fill(v.sheetsUrl, init.sheetsUrl), Fill(v.error, init.error))
  }

  /**
   * ensure_state_keys leaves every key present, keeps every key the state
   * already had, and gives each missing key its value from get_initial_state;
   * a second call changes nothing.
   */
  lemma EnsureStateKeysSpec(v: StateView)
    ensures Complete(WithDefaults(v))
    ensures v.messages.Present? ==> WithDefaults(v).messages == v.messages
    ensures v.messages.Absent? ==> WithDefaults(v).messages == InitialView().messages
    ensures v.apiUrl.Present? ==> WithDefaults(v).apiUrl == v.apiUrl
    ensures v.apiUrl.Absent? ==> WithDefaults(v).apiUrl == InitialView().apiUrl
    ensures v.userQuery.Present? ==> WithDefaults(v).userQuery == v.userQuery
    ensures v.userQuery.Absent? ==> WithDefaults(v).userQuery == InitialView().userQuery
    ensures v.extractedParams.Present? ==> WithDefaults(v).extractedParams == v.extractedParams
    ensures v.extractedParams.Absent? ==> WithDefaults(v).extractedParams == InitialView().extractedParams
    ensures v.apiData.Present? ==> WithDefaults(v).apiData == v.apiData
    ensures v.apiData.Absent? ==> WithDefaults(v).apiData == InitialView().apiData
    ensures v.processedData.Present? ==> WithDefaults(v).processedData == v.processedData
    ensures v.processedData.Absent? ==> WithDefaults(v).processedData == InitialView().processedData
    ensures v.sheetsUrl.Present? ==> WithDefaults(v).sheetsUrl == v.sheetsUrl
    ensures v.sheetsUrl.Absent? ==> WithDefaults(v).sheetsUrl == InitialView().sheetsUrl
    ensures v.error.Present? ==> WithDefaults(v).error == v.error
    ensures v.error.Absent? ==> WithDefaults(v).error == InitialView().error
    ensures WithDefaults(WithDefaults(v)) == WithDefaults(v)
    ensures Complete(v) ==> WithDefaults(v) == v
  {
  }

  /** The state invariant: extracted parameters, once set, have the shape validate_extracted_params gives them. */
  predicate ViewValid(v: StateView)
  {
    v.extractedParams.Present? && v.extractedParams.value.Some? ==> ValidSpec(v.extractedParams.value.value)
  }

  /** A stage reports trouble through a non-empty `error` (truthy in Python). */
  predicate Failed(v: StateView)
    requires Complete(v)
  {
    v.error.value != ""
  }

  /** `state.get("extracted_params")` is truthy: a dict with at least one key. */
  predicate HasParams(p: Option<Dict>)
  {
    p.Some? && p.value != []
  }

  // ----- parse_user_query -----

  const ParseErrorPrefix: string := "Erreur lors du parsing: "
  const NoJsonMessage: string := "Impossible d'extraire les paramètres JSON"

  /** The text of the AttributeError that `user_query.lower()` raises when the query is not a string. */
  function NoLowerMessage(query: Json): string
  {
    "'" + TypeName(query) + "' object has no attribute 'lower'"
  }

  /**
   * The guess parse_user_query validates, or the text of the exception that
   * stops it: the model's call failed, its reply holds no `{...}` span,
   * json.loads rejected the span, or the query is not a string.
   */
  function ParseOutcome(query: Json, reply: Result<string, string>, loads: string -> Result<Dict, string>): (r: Result<Dict, string>)
    ensures r.Success? <==> && reply.Success? && SearchJsonObject(reply.value).Some?
                            && loads(SearchJsonObject(reply.value).value).Success? && query.JStr?
    ensures r.Success? ==> r.value == loads(SearchJsonObject(reply.value).value).value
  {
    match reply
    case Failure(e) => Failure(e)
    case Success(text) =>
      match SearchJsonObject(text)
      case None => Failure(NoJsonMessage)
      case Some(span) =>
        match loads(span)
        case Failure(e) => Failure(e)
        case Success(guess) => if query.JStr? then Success(guess) else Failure(NoLowerMessage(query))
  }

  /** What validate_extracted_params promises about its result. */
  ghost predicate IsValidationOf(validated: Dict, guess: Dict, query: string)
  {
    && ValidSpec(validated)
    && Get(validated, "limit") == ResolvedLimit(guess, query)
    && StrItems(Get(validated, "fields")) == ResolvedFields(guess, Lower(query))
    && Get(validated, "filters") == ResolvedFilters(guess)
    && (Has(guess, "description") ==> Get(validated, "description") == Get(guess, "description"))
    && (!Has(guess, "description") ==>
          Get(validated, "description")
          == JStr(DescriptionText(Get(validated, "limit"), StrItems(Get(validated, "fields")))))
    && (forall k :: k !in ManagedKeys ==> Lookup(validated, k) == Lookup(guess, k))
  }

  /**
   * parse_user_query on the state as a value. It does not fill in missing
   * keys or look at an earlier error: a failure sets `error`, a success stores
   * the validated parameters and the query.
   */
  function ParseStage(v: StateView, reply: Result<string, string>, loads: string -> Result<Dict, string>): (w: StateView)
    requires ViewValid(v)
    ensures ViewValid(w) && w.messages == v.messages
    ensures CanRespond(WithDefaults(w))
  {
    var query := LatestHumanContent(SlotOr(v.messages, []));
    match ParseOutcome(query, reply, loads)
    case Failure(e) => v.(error := Present(ParseErrorPrefix + e))
    case Success(guess) =>
      ValidatedSpec(guess, query.s);
      v.(extractedParams := Present(Some(Validated(guess, query.s))), userQuery := Present(query.s))
  }

  /**
   * A failure of parse_user_query sets only `error`, to the parsing prefix
   * followed by the exception text. A success stores the validation of the
   * parsed guess against the latest human query, and the query, and changes
   * nothing else.
   */
  lemma ParseStageSpec(v: StateView, reply: Result<string, string>, loads: string -> Result<Dict, string>)
    requires ViewValid(v)
    ensures var query := LatestHumanContent(SlotOr(v.messages, []));
            var w := ParseStage(v, reply, loads);
            match ParseOutcome(query, reply, loads)
            case Failure(e) => w == v.(error := Present(ParseErrorPrefix + e))
            case Success(guess) =>
              && w.extractedParams.Present? && w.extractedParams.value.Some?
              && IsValidationOf(w.extractedParams.value.value, guess, query.s)
              && w == v.(extractedParams := w.extractedParams, userQuery := Present(query.s))
  {
    var query := LatestHumanContent(SlotOr(v.messages, []));
    if ParseOutcome(query, reply, loads).Success? {
      ValidatedSpec(ParseOutcome(query, reply, loads).value, query.s);
    }
  }

  // ----- fetch_api_data -----

  const FetchErrorPrefix: string := "Erreur lors de la récupération API: "

  /** The AttributeError of `filters.items()` on filters that are not a dict. */
  function NoItemsMessage(filters: Json): string
  {
    "'" + TypeName(filters) + "' object has no attribute 'items'"
  }

  /** The filter loop on the filters of the parameters, when there are any (graph.py:263-267). */
  function FilteredRecords(params: Option<Dict>, all: seq<Dict>): Result<seq<Dict>, string>
  {
    if HasParams(params) && Has(params.value, "filters") then
      var filters := Get(params.value, "filters");
      if filters.JObject? then ApplyFilters(all, filters.members) else Failure(NoItemsMessage(filters))
    else Success(all)
  }

  /** The slice bound of graph.py:270. */
  function LimitOf(params: Option<Dict>): Json
  {
    if HasParams(params) then GetOr(params.value, "limit", JInt(DefaultLimit)) else JInt(DefaultLimit)
  }

  /** What the try block of fetch_api_data stores in api_data, or the text of the exception it raises. */
  function FetchOutcome(params: Option<Dict>, response: Result<seq<Dict>, string>): Result<seq<Dict>, string>
  {
    match response
    case Failure(e) => Failure(e)
    case Success(all) =>
      match FilteredRecords(params, all)
      case Failure(e) => Failure(e)
      case Success(kept) => SliceTo(kept, LimitOf(params))
  }

  /** fetch_api_data on a state whose keys are all present. */
  function FetchStage(v: StateView, response: Result<seq<Dict>, string>): (w: StateView)
    requires Complete(v)
    ensures ViewValid(v) ==> Follows(v, w)
  {
    if Failed(v) then v
    else
      var url := if v.apiUrl.value == "" then DefaultApiUrl else v.apiUrl.value;
      match FetchOutcome(v.extractedParams.value, response)
      case Failure(e) => v.(apiUrl := Present(url), error := Present(FetchErrorPrefix + e))
      case Success(data) => v.(apiUrl := Present(url), apiData := Present(Some(data)))
  }

  /**
   * With validated parameters, a fetch that succeeds stores the leading items
   * among those that satisfy every id filter, in the order the API sent them,
   * and never more than the limit.
   */
  lemma FetchKeepsFilteredPrefix(p: Dict, all: seq<Dict>)
    requires ValidSpec(p)
    ensures var r := FetchOutcome(Some(p), Success(all));
            r.Success? ==> && r.value == Truncate(KeepSatisfying(all, Get(p, "filters").members), IntValue(Get(p, "limit")))
                           && |r.value| <= IntValue(Get(p, "limit"))
                           && forall item :: item in r.value ==> item in all && SatisfiesAll(item, Get(p, "filters").members)
  {
    var members := Get(p, "filters").members;
    FiltersKeepSatisfying(all, members);
    var r := FetchOutcome(Some(p), Success(all));
    if r.Success? {
      var kept := KeepSatisfying(all, members);
      assert r.value == Truncate(kept, IntValue(Get(p, "limit")));
      forall item | item in r.value ensures item in kept {
        var i :| 0 <= i < |r.value| && r.value[i] == item;
        assert kept[i] == item;
      }
    }
  }

  /** With validated parameters, a fetch fails exactly when the filter loop raises. */
  lemma FetchFailsWhen(p: Dict, all: seq<Dict>)
    requires ValidSpec(p)
    ensures FetchOutcome(Some(p), Success(all)).Failure? <==> exists j :: FailsAt(all, Get(p, "filters").members, j)
  {
    FiltersFailWhen(all, Get(p, "filters").members);
  }

  /** A limit of 0 keeps nothing, whatever the API returned, as long as the filters do not raise. */
  lemma ZeroLimitFetchesNothing(p: Dict, all: seq<Dict>)
    requires ValidSpec(p) && IntValue(Get(p, "limit")) == 0
    requires FilteredRecords(Some(p), all).Success?
    ensures FetchOutcome(Some(p), Success(all)) == Success([])
  {
  }

  /** Without parameters, the fetch keeps the first ten items the API sent. */
  lemma FetchWithoutParams(all: seq<Dict>)
    ensures FetchOutcome(None, Success(all)) == Success(Truncate(all, DefaultLimit))
  {
  }

  // ----- process_data -----

  /** The fields process_data projects on (graph.py:292-294). */
  function ProjectionFields(params: Option<Dict>): seq<string>
    requires params.Some? ==> ValidSpec(params.value)
  {
    if HasParams(params) && Has(params.value, "fields") then StrItems(Get(params.value, "fields")) else Vocabulary
  }

  /** process_data on a state whose keys are all present. */
  function ProcessStage(v: StateView): (w: StateView)
    requires Complete(v) && ViewValid(v)
    ensures Follows(v, w)
  {
    if Failed(v) || v.apiData.value.None? || v.apiData.value.value == [] then v
    else v.(processedData := Present(Some(ProjectAll(v.apiData.value.value, ProjectionFields(v.extractedParams.value)))))
  }

  /**
   * After process_data has run on fetched records, each processed record holds
   * exactly the requested fields its source record has, with the same values,
   * and projecting again on the same fields changes nothing.
   */
  lemma ProcessedRecords(v: StateView)
    requires Complete(v) && ViewValid(v)
    requires !Failed(v) && v.apiData.value.Some? && v.apiData.value.value != []
    ensures var items, fields := v.apiData.value.value, ProjectionFields(v.extractedParams.value);
            var out := ProcessStage(v).processedData.value.value;
            && |out| == |items|
            && (forall i, k :: 0 <= i < |out| ==>
                  Lookup(out[i], k) == if k in fields && Has(items[i], k) then Lookup(items[i], k) else None)
            && ProjectAll(out, fields) == out
  {
    var items, fields := v.apiData.value.value, ProjectionFields(v.extractedParams.value);
    forall i | 0 <= i < |items| ensures forall k :: Lookup(ProjectAll(items, fields)[i], k) == if k in fields && Has(items[i], k) then Lookup(items[i], k) else None {
      ProjectLookup(items[i], fields);
    }
    ProjectAllIdempotent(items, fields);
  }

  // ----- create_google_sheet -----

  const NoSinkMessage: string := "Google Sheets non configuré"
  const SheetErrorPrefix: string := "Erreur lors de la création du Google Sheet: "

  /** Whether create_google_sheet goes past its guard (graph.py:321). */
  predicate ExportsSheet(v: StateView, sinkConfigured: bool)
    requires Complete(v)
  {
    !Failed(v) && v.processedData.value.Some? && v.processedData.value.value != [] && sinkConfigured
  }

  /**
   * create_google_sheet on a state whose keys are all present. `upload` is
   * the sheet's URL, or the text of the exception the Google calls raised.
   */
  function SheetStage(v: StateView, sinkConfigured: bool, upload: Result<string, string>): (w: StateView)
    requires Complete(v)
    ensures ViewValid(v) ==> Follows(v, w)
  {
    if !ExportsSheet(v, sinkConfigured) then
      if !sinkConfigured then v.(error := Present(NoSinkMessage)) else v
    else
      match upload
      case Success(url) => v.(sheetsUrl := Present(url))
      case Failure(e) => v.(error := Present(SheetErrorPrefix + e))
  }

  /**
   * The guard of each stage: once `error` is set, fetch_api_data and
   * process_data change nothing, and create_google_sheet changes nothing
   * either unless no sheet client is configured, in which case it replaces
   * the earlier error with its own.
   */
  lemma ErrorShortCircuits(v: StateView, response: Result<seq<Dict>, string>, upload: Result<string, string>)
    requires Complete(v) && ViewValid(v) && Failed(v)
    ensures FetchStage(v, response) == v
    ensures ProcessStage(v) == v
    ensures SheetStage(v, true, upload) == v
    ensures SheetStage(v, false, upload) == v.(error := Present(NoSinkMessage))
  {
  }

  // ----- generate_response -----

  const ErrorReplyPrefix: string := "\U{274C} Erreur: "

  /** Whether generate_response can build its reply: it needs either an error or parameters. */
  predicate CanRespond(v: StateView)
    requires Complete(v)
  {
    Failed(v) || v.extractedParams.value.Some?
  }

  /**
   * `len(state.get('processed_data', []))` as written: the key is always
   * present, so a processed_data left at None reaches len() and raises.
   */
  function ProcessedCountAsWritten(processed: Option<seq<Dict>>): (r: Result<nat, string>)
    ensures r.Failure? <==> processed.None?
    ensures processed.Some? ==> r == Success(|processed.value|)
  {
    match processed
    case None => Failure("object of type 'NoneType' has no len()")
    case Some(data) => Success(|data|)
  }

  /** The count the reply reports: the number of processed records, and 0 when processing was skipped. */
  function ProcessedCount(processed: Option<seq<Dict>>): (n: nat)
    ensures processed.Some? ==> n == |processed.value|
    ensures processed.None? ==> n == 0
  {
    if processed.Some? then |processed.value| else 0
  }

  /** `params.get('fields', ['tous'])` */
  function ReplyFields(params: Dict): seq<string>
    requires ValidSpec(params)
  {
    if Has(params, "fields") then StrItems(Get(params, "fields")) else ["tous"]
  }

  const SuccessHeading: string := "\U{2705} Tâche terminée avec succès !\n\n"

  /** The success reply of graph.py:511-521. */
  function SuccessReply(count: nat, fields: seq<string>, limit: Json, sheetsUrl: string): string
    requires IsIntLike(limit)
  {
    SuccessHeading
    + ("\U{1F4CA} **Données récupérées:**\n"
    + "- " + IntToString(count) + " posts traités\n"
    + "- Champs extraits: " + Join(fields, ", ") + "\n"
    + "- Limite appliquée: " + IntLikeText(limit) + "\n\n"
    + "\U{1F4CB} **Google Sheet créé:**\n"
    + sheetsUrl + "\n\n"
    + "\U{1F517} Vous pouvez maintenant accéder à vos données dans le Google Sheet via le lien ci-dessus.")
  }

  /** The reply generate_response appends. */
  function ReplyText(v: StateView): string
    requires Complete(v) && ViewValid(v) && CanRespond(v)
  {
    if Failed(v) then ErrorReplyPrefix + v.error.value
    else
      var params := v.extractedParams.value.value;
      SuccessReply(ProcessedCount(v.processedData.value), ReplyFields(params),
                   GetOr(params, "limit", JInt(DefaultLimit)), v.sheetsUrl.value)
  }

  /** The reply reports an error exactly when the state carries one, and then quotes it. */
  lemma ReplyReportsError(v: StateView)
    requires Complete(v) && ViewValid(v) && CanRespond(v)
    ensures StartsWith(ReplyText(v), ErrorReplyPrefix) <==> Failed(v)
    ensures Failed(v) ==> ReplyText(v)[|ErrorReplyPrefix|..] == v.error.value
  {
    if !Failed(v) {
      var params := v.extractedParams.value.value;
      var text := ReplyText(v);
      assert text[0] == SuccessHeading[0];
      assert |text| >= |ErrorReplyPrefix| ==> text[..|ErrorReplyPrefix|][0] != ErrorReplyPrefix[0];
    }
  }

  /** generate_response on a state whose keys are all present: one more message, the reply. */
  function RespondStage(v: StateView): StateView
    requires Complete(v) && ViewValid(v) && CanRespond(v)
  {
    v.(messages := Present(v.messages.value + [AiMessage(ReplyText(v))]))
  }

  /** What a stage keeps: every key present, the invariant, the messages, the parameters and an error. */
  predicate Follows(v: StateView, w: StateView)
  {
    && Complete(v) && Complete(w) && ViewValid(w)
    && w.messages == v.messages && w.extractedParams == v.extractedParams
    && (Failed(v) ==> Failed(w))
  }

  /** The reply does not depend on the conversation it is appended to. */
  lemma ReplyIgnoresMessages(v: StateView)
    requires Complete(v) && ViewValid(v) && CanRespond(v)
    ensures ReplyText(RespondStage(v)) == ReplyText(v)
  {
  }

  /**
   * The state create_google_sheet receives in a run of the graph: the parsed
   * state with its keys filled in, then fetched and processed. The later calls
   * of ensure_state_keys change nothing, since the stages keep every key.
   */
  function BeforeSheet(v: StateView, reply: Result<string, string>, loads: string -> Result<Dict, string>,
                       response: Result<seq<Dict>, string>): (w: StateView)
    requires ViewValid(v)
    ensures Complete(w) && ViewValid(w) && CanRespond(w)
    ensures w.messages.value == SlotOr(v.messages, [])
  {
    var parsed := ParseStage(v, reply, loads);
    EnsureStateKeysSpec(parsed);
    ProcessStage(FetchStage(WithDefaults(parsed), response))
  }

  /**
   * The graph of graph.py:527-547 on the state as a value: parse, fetch,
   * process, the sheet and the reply. The conversation ends with the
   * messages it started with and one reply, built from the final state.
   */
  function RunStages(v: StateView, reply: Result<string, string>, loads: string -> Result<Dict, string>,
                     response: Result<seq<Dict>, string>, sinkConfigured: bool, upload: Result<string, string>): (w: StateView)
    requires ViewValid(v)
    ensures Complete(w) && ViewValid(w) && CanRespond(w)
    ensures w.messages.value == SlotOr(v.messages, []) + [AiMessage(ReplyText(w))]
  {
    var sheeted := SheetStage(BeforeSheet(v, reply, loads, response), sinkConfigured, upload);
    ReplyIgnoresMessages(sheeted);
    RespondStage(sheeted)
  }

  // ----- The state object -----

  /** The state dict the stages pass along, one field per key. */
  class AgentState {
    var messages: Slot<seq<Message>>
    var apiUrl: Slot<string>
    var userQuery: Slot<string>
    var extractedParams: Slot<Option<Dict>>
    var apiData: Slot<Option<seq<Dict>>>
    var processedData: Slot<Option<seq<Dict>>>
    var sheetsUrl: Slot<string>
    var error: Slot<string>

    function View(): StateView
      reads this
    {
      StateView(messages, apiUrl, userQuery, extractedParams, apiData, processedData, sheetsUrl, error)
    }

    ghost predicate Valid()
      reads this
    {
      ViewValid(View())
    }

    /** get_initial_state() */
    constructor Initial()
      ensures View() == InitialView() && Valid()
    {
      messages, apiUrl, userQuery := Present([]), Present(DefaultApiUrl), Present("");
      extractedParams, apiData, processedData := Present(None), Present(None), Present(None);
      sheetsUrl, error := Present(""), Present("");
    }

    /** A state handed in by the caller, with any of its keys missing. */
    constructor (v: StateView)
      requires ViewValid(v)
      ensures View() == v && Valid()
    {
      messages, apiUrl, userQuery := v.messages, v.apiUrl, v.userQuery;
      extractedParams, apiData, processedData := v.extractedParams, v.apiData, v.processedData;
      sheetsUrl, error := v.sheetsUrl, v.error;
    }

    /** ensure_state_keys (graph.py:566-574): each missing key gets its initial value. */
    method EnsureStateKeys()
      requires Valid()
      modifies this
      ensures View() == WithDefaults(old(View())) && Valid()
    {
      if messages.Absent? { messages := Present([]); }
      if apiUrl.Absent? { apiUrl := Present(DefaultApiUrl); }
      if userQuery.Absent? { userQuery := Present(""); }
      if extractedParams.Absent? { extractedParams := Present(None); }
      if apiData.Absent? { apiData := Present(None); }
      if processedData.Absent? { processedData := Present(None); }
      if sheetsUrl.Absent? { sheetsUrl := Present(""); }
      if error.Absent? { error := Present(""); }
    }

    /**
     * parse_user_query (graph.py:56-162). `reply` is what the language model
     * answered, or the text of the exception its call raised; `loads` stands
     * for json.loads. On success the validated parameters and the query are
     * stored; otherwise only `error` changes. The stage does not look at an
     * earlier error and does not fill in missing keys.
     */
    method ParseUserQuery(reply: Result<string, string>, loads: string -> Result<Dict, string>)
      requires Valid()
      modifies this
      ensures View() == ParseStage(old(View()), reply, loads) && Valid()
    {
      ghost var v := View();
      var query := LatestHumanQuery(SlotOr(messages, []));
      match reply {
        case Failure(e) =>
          error := Present(ParseErrorPrefix + e);
          assert ParseOutcome(query, reply, loads) == Failure(e);
        case Success(text) =>
          var span := SearchJsonObject(text);
          if span.None? {
            error := Present(ParseErrorPrefix + NoJsonMessage);
            assert ParseOutcome(query, reply, loads) == Failure(NoJsonMessage);
          } else {
            var parsed := loads(span.value);
            if parsed.Failure? {
              error := Present(ParseErrorPrefix + parsed.error);
              assert ParseOutcome(query, reply, loads) == Failure(parsed.error);
            } else if !query.JStr? {
              error := Present(ParseErrorPrefix + NoLowerMessage(query));
              assert ParseOutcome(query, reply, loads) == Failure(NoLowerMessage(query));
            } else {
              var validated := ValidateExtractedParams(parsed.value, query.s);
              extractedParams := Present(Some(validated));
              userQuery := Present(query.s);
              assert ParseOutcome(query, reply, loads) == Success(parsed.value);
              assert View() == v.(extractedParams := Present(Some(validated)), userQuery := Present(query.s));
            }
          }
      }
    }

    /**
     * fetch_api_data (graph.py:237-279). `response` is the decoded list the
     * API returned, or the text of the exception the request raised.
     */
    method FetchApiData(response: Result<seq<Dict>, string>)
      requires Valid()
      modifies this
      ensures View() == FetchStage(WithDefaults(old(View())), response) && Valid()
    {
      EnsureStateKeys();
      if error.value != "" {
        return;
      }
      if apiUrl.value == "" {
        apiUrl := Present(DefaultApiUrl);
      }
      match response {
        case Failure(e) =>
          error := Present(FetchErrorPrefix + e);
        case Success(allData) =>
          var params := extractedParams.value;
          var filtered: Result<seq<Dict>, string> := Success(allData);
          if HasParams(params) && Has(params.value, "filters") {
            var filters := Get(params.value, "filters");
            if filters.JObject? {
              filtered := FilterRecords(allData, filters.members);
            } else {
              filtered := Failure(NoItemsMessage(filters));
            }
          }
          if filtered.Failure? {
            error := Present(FetchErrorPrefix + filtered.error);
            return;
          }
          var limit := if HasParams(params) then GetOr(params.value, "limit", JInt(DefaultLimit)) else JInt(DefaultLimit);
          var sliced := SliceTo(filtered.value, limit);
          if sliced.Failure? {
            error := Present(FetchErrorPrefix + sliced.error);
          } else {
            apiData := Present(Some(sliced.value));
          }
      }
    }

    /** process_data (graph.py:281-312). */
    method ProcessData()
      requires Valid()
      modifies this
      ensures View() == ProcessStage(WithDefaults(old(View()))) && Valid()
    {
      EnsureStateKeys();
      if error.value != "" || apiData.value.None? || apiData.value.value == [] {
        return;
      }
      var fields := Vocabulary;
      var params := extractedParams.value;
      if HasParams(params) && Has(params.value, "fields") {
        fields := StrItems(Get(params.value, "fields"));
      }
      var processed := ProjectRecords(apiData.value.value, fields);
      processedData := Present(Some(processed));
    }

    /**
     * create_google_sheet (graph.py:315-498). `sinkConfigured` says whether
     * the module-level sheet client exists; `upload` is the new sheet's URL,
     * or the text of the exception the Google calls raised. The rows returned
     * are those appended to the worksheet.
     */
    method CreateGoogleSheet(sinkConfigured: bool, upload: Result<string, string>) returns (rows: seq<seq<Json>>)
      requires Valid()
      modifies this
      ensures View() == SheetStage(WithDefaults(old(View())), sinkConfigured, upload) && Valid()
      ensures var v := WithDefaults(old(View()));
              if ExportsSheet(v, sinkConfigured) && upload.Success? then IsSheetLayout(v.processedData.value.value, rows)
              else rows == []
    {
      rows := [];
      EnsureStateKeys();
      if error.value != "" || processedData.value.None? || processedData.value.value == [] || !sinkConfigured {
        if !sinkConfigured {
          error := Present(NoSinkMessage);
        }
        return;
      }
      match upload {
        case Success(url) =>
          rows := LayoutRows(processedData.value.value);
          sheetsUrl := Present(url);
        case Failure(e) =>
          error := Present(SheetErrorPrefix + e);
      }
    }

    /** generate_response (graph.py:501-524): append the reply to the conversation. */
    method GenerateResponse()
      requires Valid() && CanRespond(WithDefaults(View()))
      modifies this
      ensures View() == RespondStage(WithDefaults(old(View()))) && Valid()
    {
      EnsureStateKeys();
      messages := Present(messages.value + [AiMessage(ReplyText(View()))]);
    }

    /**
     * The graph of graph.py:527-547: the five stages in order. The rows
     * returned are those the sheet stage appended.
     */
    method Run(reply: Result<string, string>, loads: string -> Result<Dict, string>,
               response: Result<seq<Dict>, string>, sinkConfigured: bool, upload: Result<string, string>)
      returns (rows: seq<seq<Json>>)
      requires Valid()
      modifies this
      ensures Valid() && View() == RunStages(old(View()), reply, loads, response, sinkConfigured, upload)
      ensures var before := BeforeSheet(old(View()), reply, loads, response);
              if ExportsSheet(before, sinkConfigured) && upload.Success? then IsSheetLayout(before.processedData.value.value, rows)
              else rows == []
      ensures messages.value == SlotOr(old(messages), []) + [AiMessage(ReplyText(View()))]
    {
      ParseUserQuery(reply, loads);
      ghost var parsed := View();
      EnsureStateKeysSpec(parsed);
      FetchApiData(response);
      ghost var fetched := View();
      EnsureStateKeysSpec(fetched);
      ProcessData();
      ghost var before := View();
      EnsureStateKeysSpec(before);
      rows := CreateGoogleSheet(sinkConfigured, upload);
      ghost var sheeted := View();
      EnsureStateKeysSpec(sheeted);
      GenerateResponse();
    }
  }

  // ----- The empty fetch -----

  /**
   * When the fetch succeeds with nothing to keep (a limit of 0, or filters
   * that keep no record), process_data skips its work and processed_data
   * stays None, and with a configured sheet client create_google_sheet sets
   * no error: the reply's `len(state.get('processed_data', []))` then meets
   * None and raises TypeError.
   */
  lemma EmptyFetchReachesLenOfNone(v: StateView, response: Result<seq<Dict>, string>, upload: Result<string, string>)
    requires Complete(v) && ViewValid(v) && !Failed(v)
    requires v.extractedParams.value.Some? && v.processedData.value.None?
    requires FetchOutcome(v.extractedParams.value, response) == Success([])
    ensures var after := SheetStage(ProcessStage(FetchStage(v, response)), true, upload);
            && Complete(after) && !Failed(after) && CanRespond(after)
            && ProcessedCountAsWritten(after.processedData.value).Failure?
  {
  }

  /** With the count corrected, the same state gets a success reply that reports 0 processed posts. */
  lemma EmptyFetchReportsZero(v: StateView, response: Result<seq<Dict>, string>, upload: Result<string, string>)
    requires Complete(v) && ViewValid(v) && !Failed(v)
    requires v.extractedParams.value.Some? && v.processedData.value.None?
    requires FetchOutcome(v.extractedParams.value, response) == Success([])
    ensures var after := SheetStage(ProcessStage(FetchStage(v, response)), true, upload);
            && Complete(after) && ViewValid(after) && CanRespond(after)
            && !StartsWith(ReplyText(after), ErrorReplyPrefix)
            && ProcessedCount(after.processedData.value) == 0
  {
    var after := SheetStage(ProcessStage(FetchStage(v, response)), true, upload);
    ReplyReportsError(after);
  }
}
