/**
 * The WhatsApp orchestrator: the web orchestrator's pipeline plus an
 * optional user on the basic path and a symptoms-aware routed query.
 */
module WhatsAppOrchestrator {
  import opened Wrappers
  import opened Strings
  import opened AgentTypes
  import opened ConversationHistory
  import opened Routing

  /** The user a call acts for: Python's `if user_id:` keeps only a non-empty id. */
  function KnownUser(user: Option<string>): (r: Option<string>)
    ensures r.Some? <==> user.Some? && user.value != ""
    ensures r.Some? ==> r == user
  {
    if user.Some? && user.value != "" then user else None
  }

  /** The stand-in log rows built from the symptoms text. */
  function SymptomLogs(symptoms: string): (r: Record)
    ensures r.Keys == {"current_symptoms", "symptom_description", "user_concerns"}
    ensures forall k :: k in r ==> r[k] == Str(symptoms)
  {
    map["current_symptoms" := Str(symptoms), "symptom_description" := Str(symptoms), "user_concerns" := Str(symptoms)]
  }

  /** The query text saved in the history for a query answered with symptoms. */
  function SymptomTurn(query: string, symptoms: string): (r: string)
    ensures |r| == |query| + |symptoms| + 18
    ensures r[..|query|] == query
  {
    query + " (with symptoms: " + symptoms + ")"
  }

  /** The arguments `run_query_with_symptoms` passes to the chosen agent: no profile, the symptom logs, and the user's context when there is one. */
  function SymptomRequest(m: History, query: string, symptoms: string, user: Option<string>): (r: AgentRequest)
    ensures r.query == query && r.profile.None? && r.logs == Some(SymptomLogs(symptoms))
    ensures KnownUser(user).None? ==> r.context == NoHistoryText && r.isFirst
    ensures KnownUser(user).Some? ==>
      r.context == ContextText(m, user.value, DefaultExchanges) && r.isFirst == IsFirst(m, user.value)
  {
    match KnownUser(user)
    case None => AgentRequest(query, None, Some(SymptomLogs(symptoms)), NoHistoryText, true)
    case Some(u) =>
      AgentRequest(query, None, Some(SymptomLogs(symptoms)), ContextText(m, u, DefaultExchanges), IsFirst(m, u))
  }

  /** The cleaned reply of a query answered with symptoms: categorise, route, extract, clean. */
  function SymptomReply(m: History, query: string, symptoms: string, user: Option<string>, b: Backend): (r: Option<string>)
    ensures r.Some? ==> IsTrimmedReply(r.value)
  {
    match b.classify(query)
    case None => None
    case Some(raw) =>
      match b.runAgent(RouteCategory(CategoryText(raw)), SymptomRequest(m, query, symptoms, user))
      case None => None
      case Some(answer) =>
        match ResponseText(answer, b.repr)
        case None => None
        case Some(t) => Some(CleanResponse(t, b.removePatterns))
  }

  /**
   * The middle of `run_query_with_symptoms`: categorise the query, run the
   * chosen agent on `request`, extract its text and clean it.
   */
  method RouteWithSymptoms(ghost m: History, query: string, symptoms: string, user: Option<string>,
                           request: AgentRequest, b: Backend) returns (reply: Option<string>)
    requires request == SymptomRequest(m, query, symptoms, user)
    ensures reply == SymptomReply(m, query, symptoms, user, b)
  {
    var raw := b.classify(query);
    if raw.None? {
      return None;
    }
    var category := RouteCategory(CategoryText(raw.value));
    var answer := b.runAgent(category, request);
    if answer.None? {
      return None;
    }
    var extracted := ResponseText(answer.value, b.repr);
    if extracted.None? {
      return None;
    }
    reply := Some(CleanResponse(extracted.value, b.removePatterns));
  }

  /**
   * `run_query_with_symptoms(query, symptoms, user)`: routed like the
   * pipeline, and saved (with the symptoms appended to the query) only
   * for a known user.
   */
  function SymptomQueryOutcome(m: History, query: string, symptoms: string, user: Option<string>, b: Backend): (o: Outcome)
    ensures o.reply.None? || KnownUser(user).None? ==> o.history == m
    ensures o.reply.Some? ==> IsTrimmedReply(o.reply.value)
    ensures o.reply.Some? && KnownUser(user).Some? ==>
      o.history == Saved(m, user.value, SymptomTurn(query, symptoms), o.reply.value)
    ensures KnownUser(user).Some? ==> ChangesOnly(m, o.history, user.value)
    ensures AllWellFormed(m) ==> AllWellFormed(o.history)
  {
    var reply := SymptomReply(m, query, symptoms, user, b);
    if reply.Some? && KnownUser(user).Some? then
      SavedKeepsWellFormed(m, user.value, SymptomTurn(query, symptoms), reply.value);
      Outcome(reply, Saved(m, user.value, SymptomTurn(query, symptoms), reply.value))
    else Outcome(reply, m)
  }

  /** A cleaned reply: trimmed, with no blank lines. */
  ghost predicate IsTrimmedReply(s: string) {
    IsTrimmed(s) && NoDoubled(s, IsNewline)
  }

  class WhatsAppOrchestrator {
    /** `self.conversation_history`. */
    const history: HistoryStore

    constructor()
      ensures fresh(history) && history.conversations == map[] && history.Valid()
    {
      history := new HistoryStore();
    }

    /** `run_basic_query_agent(user_query, user_id=None)`: user data, context and saving only for a known user. */
    method RunBasicQueryAgent(query: string, user: Option<string>, b: Backend) returns (reply: Option<string>)
      modifies history
      ensures reply == BasicQueryOutcome(old(history.conversations), query, KnownUser(user), b).reply
      ensures history.conversations == BasicQueryOutcome(old(history.conversations), query, KnownUser(user), b).history
      ensures old(history.Valid()) ==> history.Valid()
    {
      var request: AgentRequest;
      if user.Some? && user.value != "" {
        var (profile, logs) := b.userData(user.value);
        var context := history.GetContext(user.value, DefaultExchanges);
        var first := history.IsFirstQuery(user.value);
        request := AgentRequest(query, profile, logs, context, first);
      } else {
        request := AgentRequest(query, None, None, NoHistoryText, true);
      }
      var answer := b.runAgent(BasicQuery, request);
      if answer.None? || answer.value.Dict? {
        return None;
      }
      var text := CleanResponse(answer.value.text, b.removePatterns);
      if user.Some? && user.value != "" {
        history.SaveExchange(user.value, query, text);
      }
      reply := Some(text);
    }

    /** `run_basic_query_without_user(user_query)`: the basic path with no user; the history is untouched. */
    method RunBasicQueryWithoutUser(query: string, b: Backend) returns (reply: Option<string>)
      modifies history
      ensures reply == BasicQueryOutcome(old(history.conversations), query, None, b).reply
      ensures history.conversations == old(history.conversations)
      ensures old(history.Valid()) ==> history.Valid()
    {
      reply := RunBasicQueryAgent(query, None, b);
    }

    /** `run_query_with_symptoms(user_query, symptoms, user_id=None)`. */
    method RunQueryWithSymptoms(query: string, symptoms: string, user: Option<string>, b: Backend)
      returns (reply: Option<string>)
      modifies history
      ensures reply == SymptomQueryOutcome(old(history.conversations), query, symptoms, user, b).reply
      ensures history.conversations == SymptomQueryOutcome(old(history.conversations), query, symptoms, user, b).history
      ensures old(history.Valid()) ==> history.Valid()
    {
      var known := KnownUser(user);
      var logs := SymptomLogs(symptoms);
      var context := NoHistoryText;
      var first := true;
      if known.Some? {
        context := history.GetContext(known.value, DefaultExchanges);
        first := history.IsFirstQuery(known.value);
      }
      var request := AgentRequest(query, None, Some(logs), context, first);
      reply := RouteWithSymptoms(history.conversations, query, symptoms, user, request, b);
      if reply.Some? && known.Some? {
        history.SaveExchange(known.value, SymptomTurn(query, symptoms), reply.value);
      }
    }

    /** `run_categorization_pipeline(query, user_id)`, the same pipeline as the web orchestrator's. */
    method RunCategorizationPipeline(query: string, user: string, b: Backend) returns (reply: Option<string>)
      modifies history
      ensures reply == PipelineOutcome(old(history.conversations), query, user, b).reply
      ensures history.conversations == PipelineOutcome(old(history.conversations), query, user, b).history
      ensures old(history.Valid()) ==> history.Valid()
    {
      var raw := b.classify(query);
      if raw.None? {
        return None;
      }
      var category := RouteCategory(CategoryText(raw.value));
      var (profile, logs) := b.userData(user);
      var context := history.GetContext(user, DefaultExchanges);
      var first := history.IsFirstQuery(user);
      var answer := b.runAgent(category, AgentRequest(query, profile, logs, context, first));
      if answer.None? {
        return None;
      }
      var extracted := ResponseText(answer.value, b.repr);
      if extracted.None? {
        return None;
      }
      var text := CleanResponse(extracted.value, b.removePatterns);
      history.SaveExchange(user, query, text);
      reply := Some(text);
    }
  }
}
