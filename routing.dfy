/**
 * The pieces both orchestrators share: the category rule applied to the
 * LLM's answer, the extraction of the reply text, `clean_response`, and the
 * outcome of a routed or basic query as a function of the history before it.
 */
module Routing {
  import opened Wrappers
  import opened Strings
  import opened AgentTypes
  import opened ConversationHistory

  /** The category names the LLM is asked to answer with. */
  function CategoryName(c: Category): string {
    match c
    case BasicQuery => "BASIC_QUERY"
    case Consultation => "CONSULTATION"
    case Diet => "DIET"
    case Exercise => "EXERCISE"
  }

  /** `_categorize_query`'s post-processing: `.strip().upper()` of the LLM's text. */
  function CategoryText(raw: string): (r: string)
    ensures |r| <= |raw|
    ensures IsTrimmed(r)
    ensures forall i :: 0 <= i < |r| ==> !('a' <= r[i] <= 'z')
  {
    UpperKeepsTrimmed(Strip(raw));
    UpperLeavesNoLower(Strip(raw));
    Upper(Strip(raw))
  }

  /** Normalising an already normalised answer changes nothing. */
  lemma CategoryTextIdempotent(raw: string)
    ensures CategoryText(CategoryText(raw)) == CategoryText(raw)
  {
    var r := CategoryText(raw);
    UpperWithoutLowerIsIdentity(r);
  }

  /** The routing rule: fixed-priority substring tests, BASIC_QUERY by default. */
  function RouteCategory(text: string): (c: Category)
    ensures c == Consultation <==> Contains(text, "CONSULTATION")
    ensures c == Diet <==> !Contains(text, "CONSULTATION") && Contains(text, "DIET")
    ensures c == Exercise <==>
      !Contains(text, "CONSULTATION") && !Contains(text, "DIET") && Contains(text, "EXERCISE")
    ensures c == BasicQuery <==>
      !Contains(text, "CONSULTATION") && !Contains(text, "DIET") && !Contains(text, "EXERCISE")
  {
    if Contains(text, "CONSULTATION") then Consultation
    else if Contains(text, "DIET") then Diet
    else if Contains(text, "EXERCISE") then Exercise
    else BasicQuery
  }

  /** An LLM answer that is exactly a category's name is routed to that category. */
  lemma RouteRecognisesEachName(c: Category)
    ensures RouteCategory(CategoryName(c)) == c
  {
    var n := CategoryName(c);
    ContainsSelf(n);
    match c
    case BasicQuery =>
      ContainsNoLongerContra(n, "CONSULTATION");
      MissingCharNotContained(n, "DIET", 0);
      MissingCharNotContained(n, "EXERCISE", 1);
    case Consultation =>
    case Diet =>
      ContainsNoLongerContra(n, "CONSULTATION");
    case Exercise =>
      ContainsNoLongerContra(n, "CONSULTATION");
      MissingCharNotContained(n, "DIET", 0);
  }

  lemma ContainsNoLongerContra(s: string, sub: string)
    requires |s| < |sub|
    ensures !Contains(s, sub)
  {
    if Contains(s, sub) {
      ContainsNoLonger(s, sub);
    }
  }

  /**
   * The reply text: `response['output']` for a dictionary holding 'output',
   * otherwise `str(response)`. `None` when the output is not a string, where
   * the `clean_response` that follows raises.
   */
  function ResponseText(reply: AgentReply, repr: Record -> string): (r: Option<string>)
    ensures reply.Text? ==> r == Some(reply.text)
    ensures reply.Dict? && OutputKey in reply.entries && reply.entries[OutputKey].Str? ==>
      r == Some(reply.entries[OutputKey].s)
    ensures reply.Dict? && OutputKey !in reply.entries ==> r == Some(repr(reply.entries))
  {
    match reply
    case Text(t) => Some(t)
    case Dict(entries) =>
      if OutputKey in entries then
        (if entries[OutputKey].Str? then Some(entries[OutputKey].s) else None)
      else Some(repr(entries))
  }

  /** `clean_response`: the pattern deletions, then newline runs collapsed to one, then `strip()`. */
  function CleanResponse(response: string, removePatterns: string -> string): (r: string)
    ensures IsTrimmed(r)
    ensures NoDoubled(r, IsNewline)
  {
    var collapsed := CollapseRuns(removePatterns(response), IsNewline, '\n');
    StripKeepsNoDoubled(collapsed, IsNewline);
    Strip(collapsed)
  }

  /** The reply of a query and the history after it. */
  datatype Outcome = Outcome(reply: Option<string>, history: History)

  /** The arguments `run_categorization_pipeline` passes to the chosen agent. */
  function PipelineRequest(m: History, query: string, user: string, b: Backend): (r: AgentRequest)
    ensures r.query == query && r.isFirst == IsFirst(m, user)
    ensures r.context == ContextText(m, user, DefaultExchanges)
  {
    var (profile, logs) := b.userData(user);
    AgentRequest(query, profile, logs, ContextText(m, user, DefaultExchanges), IsFirst(m, user))
  }

  /**
   * `run_categorization_pipeline(query, user)`: categorise, route, extract
   * and clean the reply, save the exchange. An exception anywhere leaves
   * the history as it was.
   */
  function PipelineOutcome(m: History, query: string, user: string, b: Backend): (o: Outcome)
    ensures o.reply.None? ==> o.history == m
    ensures o.reply.Some? ==> IsTrimmed(o.reply.value) && o.history == Saved(m, user, query, o.reply.value)
  {
    match b.classify(query)
    case None => Outcome(None, m)
    case Some(raw) =>
      match b.runAgent(RouteCategory(CategoryText(raw)), PipelineRequest(m, query, user, b))
      case None => Outcome(None, m)
      case Some(answer) =>
        match ResponseText(answer, b.repr)
        case None => Outcome(None, m)
        case Some(t) =>
          var text := CleanResponse(t, b.removePatterns);
          Outcome(Some(text), Saved(m, user, query, text))
  }

  /**
   * The arguments `run_basic_query_agent` passes to the basic agent: the
   * user's data and context, or (for no user) no data, the fixed context
   * and `is_first_query=True`.
   */
  function BasicQueryRequest(m: History, query: string, user: Option<string>, b: Backend): (r: AgentRequest)
    ensures r.query == query
    ensures user.None? ==> r.profile.None? && r.logs.None? && r.context == NoHistoryText && r.isFirst
    ensures user.Some? ==> r == PipelineRequest(m, query, user.value, b)
  {
    match user
    case None => AgentRequest(query, None, None, NoHistoryText, true)
    case Some(u) => PipelineRequest(m, query, u, b)
  }

  /**
   * `run_basic_query_agent(query, user)`: the basic agent's string reply,
   * cleaned, saved when there is a user. A dictionary reply makes
   * `clean_response` raise.
   */
  function BasicQueryOutcome(m: History, query: string, user: Option<string>, b: Backend): (o: Outcome)
    ensures o.reply.None? || user.None? ==> o.history == m
    ensures o.reply.Some? ==> IsTrimmed(o.reply.value)
    ensures o.reply.Some? && user.Some? ==> o.history == Saved(m, user.value, query, o.reply.value)
  {
    match b.runAgent(BasicQuery, BasicQueryRequest(m, query, user, b))
    case Some(Text(t)) =>
      var text := CleanResponse(t, b.removePatterns);
      Outcome(Some(text), if user.Some? then Saved(m, user.value, query, text) else m)
    case _ => Outcome(None, m)
  }
}
