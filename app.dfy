/**
 * The Flask endpoints of the agent service: request validation and the
 * JSON bodies of `/chat`, `/basicquery`, `/consultation`, `/exercise` and
 * `/diet`. A request body is the parsed JSON object (`None` when there is
 * none); each call into the orchestrator or an agent gives `Failure` with
 * the exception's text when it raises.
 */
module App {
  import opened Wrappers
  import opened Strings
  import opened AgentTypes
  import opened Routing
  import Consultation
  import Diet

  datatype HttpResponse = HttpResponse(status: int, body: Record)

  const QueryKey := "query"
  const UserIdKey := "user_id"
  const ResponseKey := "response"
  const CategoryKey := "category"
  const StatusKey := "status"

  const MissingFields := "Request must include \"query\" and \"user_id\""
  const EmptyFields := "Empty query or user_id provided"
  const NoQuery := "No query provided"
  const EmptyQuery := "Empty query provided"
  const InternalError := "An internal server error occurred."
  const ServerErrorPrefix := "Server error: "

  /** A 400 whose body is only the error text (`/chat`, `/basicquery`). */
  function BadRequest(message: string): (r: HttpResponse)
    ensures r.status == 400 && r.body == map[ErrorKey := Str(message)]
  {
    HttpResponse(400, map[ErrorKey := Str(message)])
  }

  /** A 400 whose body also carries `status` "error" (the single-agent endpoints). */
  function BadRequestWithStatus(message: string): (r: HttpResponse)
    ensures r.status == 400 && ErrorKey in r.body && r.body[ErrorKey] == Str(message)
    ensures StatusKey in r.body && r.body[StatusKey] == Str("error")
  {
    HttpResponse(400, map[ErrorKey := Str(message), StatusKey := Str("error")])
  }

  /** The 500 for an exception whose `str()` is `detail`. */
  function ServerError(detail: string): (r: HttpResponse)
    ensures r.status == 500 && ErrorKey in r.body && r.body[ErrorKey].Str?
    ensures StartsWith(r.body[ErrorKey].s, ServerErrorPrefix) && r.body[ErrorKey].s[|ServerErrorPrefix|..] == detail
    ensures StatusKey in r.body && r.body[StatusKey] == Str("error")
  {
    var text := ServerErrorPrefix + detail;
    assert text[..|ServerErrorPrefix|] == ServerErrorPrefix;
    HttpResponse(500, map[ErrorKey := Str(text), StatusKey := Str("error")])
  }

  /**
   * `data[key].strip()`: the stripped string, or the text of the
   * `AttributeError` raised for a value that is not a string
   * (`typeError` gives that text).
   */
  function StrippedField(v: Value, typeError: Value -> string): (r: Result<string, string>)
    ensures v.Str? <==> r.Success?
    ensures r.Success? ==> r.value == Strip(v.s) && IsTrimmed(r.value)
    ensures r.Failure? ==> r.error == typeError(v)
  {
    if v.Str? then Success(Strip(v.s)) else Failure(typeError(v))
  }

  /**
   * The validation shared by `/chat` and `/basicquery`: both keys present,
   * then both values stripped (query first) and both non-empty. `Success`
   * carries the stripped query and user id; `Failure` the response to send.
   */
  function QueryAndUser(data: Option<Record>, typeError: Value -> string): (r: Result<(string, string), HttpResponse>)
    ensures (data.None? || QueryKey !in data.value || UserIdKey !in data.value) ==> r == Failure(BadRequest(MissingFields))
    ensures r.Success? ==>
      data.Some? && QueryKey in data.value && UserIdKey in data.value &&
      data.value[QueryKey].Str? && data.value[UserIdKey].Str? &&
      r.value.0 == Strip(data.value[QueryKey].s) && r.value.1 == Strip(data.value[UserIdKey].s) &&
      r.value.0 != "" && r.value.1 != ""
    ensures r.Failure? ==> r.error.status == 400 || r.error.status == 500
    ensures r.Failure? && r.error.status == 400 ==>
      r.error == BadRequest(MissingFields) || r.error == BadRequest(EmptyFields)
    ensures data.Some? && QueryKey in data.value && UserIdKey in data.value && !data.value[QueryKey].Str? ==>
      r == Failure(ServerError(typeError(data.value[QueryKey])))
    ensures data.Some? && QueryKey in data.value && UserIdKey in data.value && data.value[QueryKey].Str? &&
            !data.value[UserIdKey].Str? ==>
      r == Failure(ServerError(typeError(data.value[UserIdKey])))
  {
    if data.None? || QueryKey !in data.value || UserIdKey !in data.value then Failure(BadRequest(MissingFields))
    else
      match StrippedField(data.value[QueryKey], typeError)
      case Failure(e) => Failure(ServerError(e))
      case Success(query) =>
        match StrippedField(data.value[UserIdKey], typeError)
        case Failure(e) => Failure(ServerError(e))
        case Success(user) =>
          if query == "" || user == "" then Failure(BadRequest(EmptyFields)) else Success((query, user))
  }

  /** The validation of the single-agent endpoints: only `query` is needed. */
  function QueryOnly(data: Option<Record>, typeError: Value -> string): (r: Result<string, HttpResponse>)
    ensures (data.None? || QueryKey !in data.value) ==> r == Failure(BadRequestWithStatus(NoQuery))
    ensures r.Success? ==>
      data.Some? && QueryKey in data.value && data.value[QueryKey].Str? &&
      r.value == Strip(data.value[QueryKey].s) && r.value != ""
    ensures data.Some? && QueryKey in data.value && data.value[QueryKey].Str? && Strip(data.value[QueryKey].s) == "" ==>
      r == Failure(BadRequestWithStatus(EmptyQuery))
    ensures r.Failure? && r.error.status != 500 ==>
      r.error == BadRequestWithStatus(NoQuery) || r.error == BadRequestWithStatus(EmptyQuery)
    ensures data.Some? && QueryKey in data.value && data.value[QueryKey].Str? && Strip(data.value[QueryKey].s) != "" ==>
      r == Success(Strip(data.value[QueryKey].s))
    ensures data.Some? && QueryKey in data.value && !data.value[QueryKey].Str? ==>
      r == Failure(ServerError(typeError(data.value[QueryKey])))
  {
    if data.None? || QueryKey !in data.value then Failure(BadRequestWithStatus(NoQuery))
    else
      match StrippedField(data.value[QueryKey], typeError)
      case Failure(e) => Failure(ServerError(e))
      case Success(query) => if query == "" then Failure(BadRequestWithStatus(EmptyQuery)) else Success(query)
  }

  /**
   * The `response` value of a single-agent endpoint: the dictionary's
   * `output` whatever its type, otherwise `str(result)`.
   */
  function ReplyValue(reply: AgentReply, repr: Record -> string): (r: Value)
    ensures ResponseText(reply, repr).Some? ==> r == Str(ResponseText(reply, repr).value)
    ensures reply.Dict? && OutputKey in reply.entries ==> r == reply.entries[OutputKey]
  {
    match reply
    case Text(t) => Str(t)
    case Dict(entries) => if OutputKey in entries then entries[OutputKey] else Str(repr(entries))
  }

  /** `/chat`: validation, then `run_categorization_pipeline(query, user_id)` (`pipeline`). */
  function Chat(data: Option<Record>, typeError: Value -> string,
                pipeline: (string, string) -> Result<string, string>): (r: HttpResponse)
    ensures QueryAndUser(data, typeError).Failure? ==> r == QueryAndUser(data, typeError).error
    ensures r.status == 200 ==>
      QueryAndUser(data, typeError).Success? &&
      var (query, user) := QueryAndUser(data, typeError).value;
      pipeline(query, user).Success? &&
      r.body == map[UserIdKey := Str(user), QueryKey := Str(query),
                    ResponseKey := Str(pipeline(query, user).value), StatusKey := Str("success")]
    ensures QueryAndUser(data, typeError).Success? ==>
      var (query, user) := QueryAndUser(data, typeError).value;
      (pipeline(query, user).Failure? ==> r == ServerError(pipeline(query, user).error)) &&
      (pipeline(query, user).Success? ==> r.status == 200)
    ensures r.status == 200 || r.status == 400 || r.status == 500
  {
    match QueryAndUser(data, typeError)
    case Failure(rejection) => rejection
    case Success((query, user)) =>
      match pipeline(query, user)
      case Failure(detail) => ServerError(detail)
      case Success(text) =>
        HttpResponse(200, map[UserIdKey := Str(user), QueryKey := Str(query),
                              ResponseKey := Str(text), StatusKey := Str("success")])
  }

  /**
   * `/basicquery`: validation, then `run_basic_query_agent` (`agent`). Any
   * exception gives a 500 with a fixed text and no `status`.
   */
  function BasicQueryEndpoint(data: Option<Record>, typeError: Value -> string,
                              agent: (string, string) -> Result<string, string>): (r: HttpResponse)
    ensures QueryAndUser(data, typeError).Failure? && QueryAndUser(data, typeError).error.status == 400 ==>
      r == QueryAndUser(data, typeError).error
    ensures QueryAndUser(data, typeError).Failure? && QueryAndUser(data, typeError).error.status != 400 ==>
      r == HttpResponse(500, map[ErrorKey := Str(InternalError)])
    ensures r.status == 500 ==> r.body == map[ErrorKey := Str(InternalError)]
    ensures r.status == 200 ==>
      QueryAndUser(data, typeError).Success? &&
      var (query, user) := QueryAndUser(data, typeError).value;
      agent(query, user).Success? &&
      r.body == map[UserIdKey := Str(user), QueryKey := Str(query), ResponseKey := Str(agent(query, user).value),
                    CategoryKey := Str(CategoryName(BasicQuery)), StatusKey := Str("success")]
    ensures QueryAndUser(data, typeError).Success? ==>
      var (query, user) := QueryAndUser(data, typeError).value;
      (agent(query, user).Failure? ==> r == HttpResponse(500, map[ErrorKey := Str(InternalError)])) &&
      (agent(query, user).Success? ==> r.status == 200)
    ensures r.status == 200 || r.status == 400 || r.status == 500
  {
    match QueryAndUser(data, typeError)
    case Failure(rejection) =>
      if rejection.status == 400 then rejection else HttpResponse(500, map[ErrorKey := Str(InternalError)])
    case Success((query, user)) =>
      match agent(query, user)
      case Failure(_) => HttpResponse(500, map[ErrorKey := Str(InternalError)])
      case Success(text) =>
        HttpResponse(200, map[UserIdKey := Str(user), QueryKey := Str(query), ResponseKey := Str(text),
                              CategoryKey := Str(CategoryName(BasicQuery)), StatusKey := Str("success")])
  }

  /**
   * `/consultation`, `/exercise` and `/diet`: validation, then the agent's
   * `run(query)`, reported under the endpoint's fixed category.
   */
  function AgentEndpoint(category: Category, data: Option<Record>, typeError: Value -> string,
                         agent: string -> Result<AgentReply, string>, repr: Record -> string): (r: HttpResponse)
    ensures QueryOnly(data, typeError).Failure? ==> r == QueryOnly(data, typeError).error
    ensures r.status == 200 ==>
      QueryOnly(data, typeError).Success? && agent(QueryOnly(data, typeError).value).Success? &&
      r.body == map[QueryKey := Str(QueryOnly(data, typeError).value),
                    ResponseKey := ReplyValue(agent(QueryOnly(data, typeError).value).value, repr),
                    CategoryKey := Str(CategoryName(category)), StatusKey := Str("success")]
    ensures QueryOnly(data, typeError).Success? && agent(QueryOnly(data, typeError).value).Failure? ==>
      r == ServerError(agent(QueryOnly(data, typeError).value).error)
    ensures r.status == 200 || r.status == 400 || r.status == 500
  {
    match QueryOnly(data, typeError)
    case Failure(rejection) => rejection
    case Success(query) =>
      match agent(query)
      case Failure(detail) => ServerError(detail)
      case Success(reply) =>
        HttpResponse(200, map[QueryKey := Str(query), ResponseKey := ReplyValue(reply, repr),
                              CategoryKey := Str(CategoryName(category)), StatusKey := Str("success")])
  }

  /** A valid query whose agent returns is answered with 200, the agent's reply under `response`. */
  lemma AgentEndpointAnswers(category: Category, data: Option<Record>, typeError: Value -> string,
                             agent: string -> Result<AgentReply, string>, repr: Record -> string, query: string)
    requires QueryOnly(data, typeError) == Success(query) && agent(query).Success?
    ensures var r := AgentEndpoint(category, data, typeError, agent, repr);
      r.status == 200 && ResponseKey in r.body && r.body[ResponseKey] == ReplyValue(agent(query).value, repr)
  {
    ResponseKeyDistinct();
  }

  /** Whitespace around the query and user id never changes the `/chat` response. */
  lemma ChatIgnoresPadding(data: Option<Record>, typeError: Value -> string,
                           pipeline: (string, string) -> Result<string, string>)
    requires data.Some? && QueryKey in data.value && UserIdKey in data.value
    requires data.value[QueryKey].Str? && data.value[UserIdKey].Str?
    ensures var padded := data.value[QueryKey := Str(Strip(data.value[QueryKey].s))][UserIdKey := Str(Strip(data.value[UserIdKey].s))];
      Chat(Some(padded), typeError, pipeline) == Chat(data, typeError, pipeline)
  {
    var q, u := data.value[QueryKey].s, data.value[UserIdKey].s;
    PaddingKeepsValidation(data.value, q, u, typeError);
  }

  /** The validation result is the same once both fields are stripped in advance. */
  lemma PaddingKeepsValidation(fields: Record, q: string, u: string, typeError: Value -> string)
    requires QueryKey in fields && UserIdKey in fields
    requires fields[QueryKey] == Str(q) && fields[UserIdKey] == Str(u)
    ensures QueryAndUser(Some(fields[QueryKey := Str(Strip(q))][UserIdKey := Str(Strip(u))]), typeError)
      == QueryAndUser(Some(fields), typeError)
  {
    var padded := fields[QueryKey := Str(Strip(q))][UserIdKey := Str(Strip(u))];
    assert QueryKey != UserIdKey by { assert QueryKey[0] != UserIdKey[0]; }
    assert padded[QueryKey] == Str(Strip(q)) && padded[UserIdKey] == Str(Strip(u));
    StripIdempotent(q);
    StripIdempotent(u);
    ValidationOfStrings(fields, q, u, typeError);
    ValidationOfStrings(padded, Strip(q), Strip(u), typeError);
  }

  /** With both fields present as strings, validation fails only when one of them strips to nothing. */
  lemma ValidationOfStrings(fields: Record, q: string, u: string, typeError: Value -> string)
    requires QueryKey in fields && UserIdKey in fields
    requires fields[QueryKey] == Str(q) && fields[UserIdKey] == Str(u)
    ensures QueryAndUser(Some(fields), typeError) ==
      if Strip(q) == "" || Strip(u) == "" then Failure(BadRequest(EmptyFields)) else Success((Strip(q), Strip(u)))
  {
    assert StrippedField(fields[QueryKey], typeError) == Success(Strip(q));
    assert StrippedField(fields[UserIdKey], typeError) == Success(Strip(u));
  }

  /** The keys of a single-agent body are distinct, so `response` is not overwritten. */
  lemma ResponseKeyDistinct()
    ensures ResponseKey != QueryKey && ResponseKey != CategoryKey && ResponseKey != StatusKey
  {
    assert ResponseKey[0] == 'r' && CategoryKey[0] == 'c';
  }

  /**
   * `/consultation` served by the consultation agent as the endpoint
   * calls it (no profile, logs or context): a non-blank query is always
   * answered with 200, carrying the cleaned answer or the agent's apology.
   */
  lemma ConsultationEndpointAnswers(data: Option<Record>, typeError: Value -> string, repr: Record -> string,
                                    llm: Consultation.ConsultationPrompt -> Option<string>,
                                    disclaimers: seq<string -> string>, query: string)
    requires QueryOnly(data, typeError) == Success(query)
    ensures var r := AgentEndpoint(Consultation, data, typeError,
                                   q => Success(Consultation.Run(q, None, None, None, repr, llm, disclaimers)), repr);
      var answer := llm(Consultation.PromptFor(query, None, None, None, repr));
      r.status == 200 && ResponseKey in r.body &&
      r.body[ResponseKey] == Str(if answer.Some? then Consultation.Cleaned(answer.value, disclaimers) else Consultation.Apology)
  {
    AgentEndpointAnswers(Consultation, data, typeError, q => Success(Consultation.Run(q, None, None, None, repr, llm, disclaimers)), repr, query);
    var reply := Consultation.Run(query, None, None, None, repr, llm, disclaimers);
    assert ReplyValue(reply, repr) == reply.entries[OutputKey];
  }

  /**
   * `/diet` served by the diet agent as the endpoint calls it: a non-blank
   * query is always answered with 200, carrying the LLM's text or the
   * agent's apology.
   */
  lemma DietEndpointAnswers(data: Option<Record>, typeError: Value -> string, repr: Record -> string,
                            retriever: Option<string -> Option<seq<string>>>,
                            llm: Diet.DietPrompt -> Option<string>, query: string)
    requires QueryOnly(data, typeError) == Success(query)
    ensures var r := AgentEndpoint(Diet, data, typeError,
                                   q => Success(Diet.Run(q, None, None, None, repr, retriever, llm)), repr);
      var answer := llm(Diet.PromptFor(query, None, None, None, repr, Diet.DietaryInformation(retriever, query)));
      r.status == 200 && ResponseKey in r.body &&
      r.body[ResponseKey] == Str(if answer.Some? then answer.value else Diet.Apology)
  {
    AgentEndpointAnswers(Diet, data, typeError, q => Success(Diet.Run(q, None, None, None, repr, retriever, llm)), repr, query);
    var reply := Diet.Run(query, None, None, None, repr, retriever, llm);
    assert ReplyValue(reply, repr) == reply.entries[OutputKey];
  }
}
