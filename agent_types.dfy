/**
 * The values that flow between the Bloom services: Python dictionary
 * values, the replies the agents return, the four categories, and the
 * foreign calls (LLM, pandas lookups, regex deletions, `str()` of a dict)
 * that the orchestrators receive as functions.
 */
module AgentTypes {
  import opened Wrappers
  import opened Strings

  /** A Python dictionary value. `Other` is any other value (a list, a float), given by its `str()` and truthiness. */
  datatype Value = Str(s: string) | Int(i: int) | Bool(b: bool) | Null | Other(shown: string, truthy: bool)

  /** A Python dictionary with string keys. */
  type Record = map<string, Value>

  /** Python truthiness of a dictionary value. */
  predicate Truthy(v: Value) {
    match v
    case Str(s) => s != ""
    case Int(i) => i != 0
    case Bool(b) => b
    case Null => false
    case Other(_, t) => t
  }

  /** Python's `str(v)`, which is what an f-string inserts. */
  function ValueText(v: Value): (r: string)
    ensures v.Str? ==> r == v.s
  {
    match v
    case Str(s) => s
    case Int(i) => if i < 0 then "-" + NatToString(-i) else NatToString(i)
    case Bool(b) => if b then "True" else "False"
    case Null => "None"
    case Other(shown, _) => shown
  }

  /** What an agent's `run` returns: a plain string, or a dictionary such as `{"output": ..., "agent_type": ...}`. */
  datatype AgentReply = Text(text: string) | Dict(entries: Record)

  const OutputKey := "output"
  const AgentTypeKey := "agent_type"
  const ErrorKey := "error"
  const ContextUsedKey := "user_context_used"

  /** The dictionary an agent returns with an answer: `output`, `agent_type` and `user_context_used` True. */
  function AnswerReply(agent: string, text: string): (r: Record)
    ensures OutputKey in r && r[OutputKey] == Str(text)
    ensures AgentTypeKey in r && r[AgentTypeKey] == Str(agent)
    ensures ContextUsedKey in r && r[ContextUsedKey] == Bool(true)
    ensures ErrorKey !in r && |r| == 3
  {
    map[OutputKey := Str(text), AgentTypeKey := Str(agent), ContextUsedKey := Bool(true)]
  }

  /** The dictionary an agent returns when its LLM call raises: the fallback `output`, `agent_type` and `error` True. */
  function FailureReply(agent: string, text: string): (r: Record)
    ensures OutputKey in r && r[OutputKey] == Str(text)
    ensures AgentTypeKey in r && r[AgentTypeKey] == Str(agent)
    ensures ErrorKey in r && r[ErrorKey] == Bool(true)
    ensures ContextUsedKey !in r && |r| == 3
  {
    map[OutputKey := Str(text), AgentTypeKey := Str(agent), ErrorKey := Bool(true)]
  }

  /** The four routing targets. */
  datatype Category = BasicQuery | Consultation | Diet | Exercise

  /** The keyword arguments every agent's `run` receives from an orchestrator. */
  datatype AgentRequest = AgentRequest(
    query: string,
    profile: Option<Record>,
    logs: Option<Record>,
    context: string,
    isFirst: bool)

  /**
   * The calls an orchestrator makes into code outside the model. Each
   * `None` stands for an exception.
   * - `classify`: the LLM's raw text for the categorisation prompt built from a query;
   * - `runAgent`: the `run` of the agent for a category;
   * - `removePatterns`: the regex deletions at the start of `clean_response`;
   * - `userData`: `get_user_data`, the profile and log rows of a user;
   * - `repr`: Python's `str()` of a dictionary.
   */
  datatype Backend = Backend(
    classify: string -> Option<string>,
    runAgent: (Category, AgentRequest) -> Option<AgentReply>,
    removePatterns: string -> string,
    userData: string -> (Option<Record>, Option<Record>),
    repr: Record -> string)
}
