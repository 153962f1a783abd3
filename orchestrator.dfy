/** The web orchestrator: one history store, a routed pipeline and a direct basic-query path. */
module Orchestrator {
  import opened Wrappers
  import opened AgentTypes
  import opened ConversationHistory
  import opened Routing

  class Orchestrator {
    /** `self.conversation_history`. */
    const history: HistoryStore

    constructor()
      ensures fresh(history) && history.conversations == map[] && history.Valid()
    {
      history := new HistoryStore();
    }

    /** `run_basic_query_agent(user_query, user_id)`: always reads and saves under `user`. */
    method RunBasicQueryAgent(query: string, user: string, b: Backend) returns (reply: Option<string>)
      modifies history
      ensures reply == BasicQueryOutcome(old(history.conversations), query, Some(user), b).reply
      ensures history.conversations == BasicQueryOutcome(old(history.conversations), query, Some(user), b).history
      ensures old(history.Valid()) ==> history.Valid()
    {
      var (profile, logs) := b.userData(user);
      var context := history.GetContext(user, DefaultExchanges);
      var first := history.IsFirstQuery(user);
      var answer := b.runAgent(BasicQuery, AgentRequest(query, profile, logs, context, first));
      if answer.None? || answer.value.Dict? {
        return None;
      }
      var text := CleanResponse(answer.value.text, b.removePatterns);
      history.SaveExchange(user, query, text);
      reply := Some(text);
    }

    /** `run_categorization_pipeline(query, user_id)`. */
    method RunCategorizationPipeline(query: string, user: string, b: Backend) returns (reply: Option<string>)
      modifies history
      ensures reply == PipelineOutcome(old(history.conversations), query, user, b).reply
      ensures history.conversations == PipelineOutcome(old(history.conversations), query, user, b).history
      ensures old(history.Valid()) ==> history.Valid()
    {
      var raw := b.classify(query);
      if raw.None? {
        return None;
      }
      var category := RouteCategory(CategoryText(raw.value));
      var (profile, logs) := b.userData(user);
      var context := history.GetContext(user, DefaultExchanges);
      var first := history.IsFirstQuery(user);
      var answer := b.runAgent(category, AgentRequest(query, profile, logs, context, first));
      if answer.None? {
        return None;
      }
      var extracted := ResponseText(answer.value, b.repr);
      if extracted.None? {
        return None;
      }
      var text := CleanResponse(extracted.value, b.removePatterns);
      history.SaveExchange(user, query, text);
      reply := Some(text);
    }
  }
}
