/**
 * The consultation agent: post-processing of the LLM's answer (prefix and
 * quote stripping, disclaimer deletion, whitespace and period collapsing,
 * the follow-up question) and the dictionary `run` returns.
 */
module Consultation {
  import opened Wrappers
  import opened Strings
  import opened AgentTypes

  predicate IsQuote(c: char) { c == '"' || c == '\'' }

  /** `s` begins with "bloom:" in any letter case. */
  predicate HasBloomPrefix(s: string) {
    |s| >= 6 && Lower(s[..6]) == "bloom:"
  }

  /** `re.sub(r'^(Bloom:|bloom:)\s*["\']?', '', s, flags=re.IGNORECASE)`. */
  function StripBloomPrefix(s: string): (r: string)
    ensures !HasBloomPrefix(s) ==> r == s
    ensures HasBloomPrefix(s) ==> |r| <= |s| - 6 && r == s[|s| - |r|..]
    ensures HasBloomPrefix(s) ==> forall i :: 6 <= i < |s| - |r| - 1 ==> IsWhitespace(s[i])
    ensures HasBloomPrefix(s) && |s| - |r| > 6 ==> IsWhitespace(s[|s| - |r| - 1]) || IsQuote(s[|s| - |r| - 1])
    ensures HasBloomPrefix(s) && r != [] && IsWhitespace(r[0]) ==> IsQuote(s[|s| - |r| - 1])
  {
    if HasBloomPrefix(s) then
      var rest := LStrip(s[6..]);
      if |rest| > 0 && IsQuote(rest[0]) then rest[1..] else rest
    else s
  }

  /**
   * `re.sub(r'["\']$', '', s)`: one quote at the end, or (as `$` also
   * matches before a final newline) one quote just before a final newline.
   */
  function StripTrailingQuote(s: string): (r: string)
    ensures |s| > 0 && IsQuote(s[|s| - 1]) ==> r == s[..|s| - 1]
    ensures |s| > 0 && !IsQuote(s[|s| - 1]) && !(s[|s| - 1] == '\n' && |s| > 1 && IsQuote(s[|s| - 2])) ==> r == s
    ensures |r| >= |s| - 1
  {
    if |s| > 0 && IsQuote(s[|s| - 1]) then s[..|s| - 1]
    else if |s| > 1 && s[|s| - 1] == '\n' && IsQuote(s[|s| - 2]) then s[..|s| - 2] + "\n"
    else s
  }

  /** The disclaimer deletions, applied in list order. */
  function ApplyAll(patterns: seq<string -> string>, s: string): string {
    if patterns == [] then s
    else patterns[|patterns| - 1](ApplyAll(patterns[..|patterns| - 1], s))
  }

  /** `\s+` to one space, then `\.+` to one period, then `strip()`. */
  function Tidy(s: string): (r: string)
    ensures IsTrimmed(r)
    ensures NoDoubled(r, IsWhitespace)
    ensures NoDoubled(r, IsPeriod)
    ensures |r| <= |s|
  {
    var spaced := CollapseRuns(s, IsWhitespace, ' ');
    var dotted := CollapseRuns(spaced, IsPeriod, '.');
    CollapseKeepsNoDoubled(spaced, IsPeriod, '.', IsWhitespace);
    StripKeepsNoDoubled(dotted, IsWhitespace);
    StripKeepsNoDoubled(dotted, IsPeriod);
    Strip(dotted)
  }

  /** The follow-up question, written in two pieces so that the verifier can read its last character. */
  const FollowUp := "What would you like to know more about" + "?"
  const MinimumLength := 30

  /** The follow-up rule: a text shorter than 30 characters that does not end in '?' gets the question, after ". " unless it is empty or ends in '.'. */
  function AddFollowUp(c: string): (r: string)
    ensures |c| >= MinimumLength || EndsWith(c, "?") ==> r == c
    ensures |c| < MinimumLength && !EndsWith(c, "?") ==>
      StartsWith(r, c) && EndsWith(r, FollowUp) &&
      r == c + (if c != "" && !EndsWith(c, ".") then ". " else "") + FollowUp
    ensures |r| >= MinimumLength || EndsWith(r, "?")
  {
    if |c| < MinimumLength && !EndsWith(c, "?") then
      var r := (if c != "" && !EndsWith(c, ".") then c + ". " else c) + FollowUp;
      assert r[|r| - 1..] == "?";
      assert r[..|c|] == c;
      assert r[|r| - |FollowUp|..] == FollowUp;
      r
    else c
  }

  /** `_clean_response_and_add_followup(response, user_query)` as a function of the LLM's text. */
  function Cleaned(response: string, disclaimers: seq<string -> string>): (r: string)
    ensures |r| >= MinimumLength || EndsWith(r, "?")
  {
    AddFollowUp(Tidy(ApplyAll(disclaimers, StripTrailingQuote(StripBloomPrefix(Strip(response))))))
  }

  /** The reply is never empty. */
  lemma CleanedNeverEmpty(response: string, disclaimers: seq<string -> string>)
    ensures |Cleaned(response, disclaimers)| > 0
  {
    var r := Cleaned(response, disclaimers);
    if |r| < MinimumLength {
      assert EndsWith(r, "?");
    }
  }

  /** The loop over the disclaimer patterns, each deletion applied to the result of the one before. */
  method RemoveDisclaimers(text: string, disclaimers: seq<string -> string>) returns (r: string)
    ensures r == ApplyAll(disclaimers, text)
  {
    r := text;
    var i := 0;
    while i < |disclaimers|
      invariant 0 <= i <= |disclaimers|
      invariant r == ApplyAll(disclaimers[..i], text)
    {
      assert disclaimers[..i + 1][..i] == disclaimers[..i];
      r := disclaimers[i](r);
      i := i + 1;
    }
    assert disclaimers[..i] == disclaimers;
  }

  /** The step-by-step cleaning of `_clean_response_and_add_followup`. */
  method CleanResponseAndAddFollowup(response: string, disclaimers: seq<string -> string>) returns (cleaned: string)
    ensures cleaned == Cleaned(response, disclaimers)
  {
    cleaned := StripBloomPrefix(Strip(response));
    cleaned := StripTrailingQuote(cleaned);
    cleaned := RemoveDisclaimers(cleaned, disclaimers);
    ghost var applied := cleaned;
    cleaned := CollapseRuns(cleaned, IsWhitespace, ' ');
    cleaned := CollapseRuns(cleaned, IsPeriod, '.');
    cleaned := Strip(cleaned);
    assert cleaned == Tidy(applied);
    ghost var tidy := cleaned;
    if |cleaned| < MinimumLength && !EndsWith(cleaned, "?") {
      if cleaned != "" && !EndsWith(cleaned, ".") {
        cleaned := cleaned + ". ";
      }
      cleaned := cleaned + FollowUp;
    }
    assert cleaned == AddFollowUp(tidy);
  }

  const AgentName := "consultation"
  const Apology := "I'd love to help you with that. Can you tell me more about what you're experiencing specifically?"

  /** What the consultation prompt is built from. */
  datatype ConsultationPrompt = ConsultationPrompt(profileText: string, logsText: string, contextText: string, query: string)

  /** The prompt inputs, with `str()` of each truthy dictionary and the fixed defaults otherwise. */
  function PromptFor(query: string, profile: Option<Record>, logs: Option<Record>, context: Option<string>,
                     repr: Record -> string): (p: ConsultationPrompt)
    ensures profile.None? || profile.value == map[] ==> p.profileText == "No user profile available"
    ensures logs.None? || logs.value == map[] ==> p.logsText == "No previous interaction history"
    ensures context.None? || context.value == "" ==> p.contextText == "No previous conversation history"
    ensures context.Some? && context.value != "" ==> p.contextText == context.value
    ensures p.query == query
  {
    ConsultationPrompt(
      if profile.Some? && profile.value != map[] then repr(profile.value) else "No user profile available",
      if logs.Some? && logs.value != map[] then repr(logs.value) else "No previous interaction history",
      if context.Some? && context.value != "" then context.value else "No previous conversation history",
      query)
  }

  /**
   * `ConsultationAgent.run`: the cleaned answer with `user_context_used`,
   * or, when the LLM raises (`llm` gives `None`), the fixed apology with
   * `error`. Both carry `agent_type` "consultation".
   */
  function Run(query: string, profile: Option<Record>, logs: Option<Record>, context: Option<string>,
               repr: Record -> string, llm: ConsultationPrompt -> Option<string>,
               disclaimers: seq<string -> string>): (r: AgentReply)
    ensures r.Dict?
    ensures var answer := llm(PromptFor(query, profile, logs, context, repr));
      if answer.None? then r.entries == FailureReply(AgentName, Apology)
      else r.entries == AnswerReply(AgentName, Cleaned(answer.value, disclaimers))
    ensures var answer := llm(PromptFor(query, profile, logs, context, repr));
      OutputKey in r.entries && r.entries[OutputKey] == Str(if answer.Some? then Cleaned(answer.value, disclaimers) else Apology)
  {
    match llm(PromptFor(query, profile, logs, context, repr))
    case None => Dict(FailureReply(AgentName, Apology))
    case Some(answer) => Dict(AnswerReply(AgentName, Cleaned(answer, disclaimers)))
  }
}
