/**
 * The diet agent: combining retrieved research snippets
 * (`get_dietary_information`) and the dictionary `run` returns.
 */
module Diet {
  import opened Wrappers
  import opened Strings
  import opened AgentTypes

  const NoRetriever := "RAG system not available. Please try rephrasing your question."
  const NothingRetrieved := "No specific dietary information found."
  const NothingRelevant := "No relevant information found."
  const RetrievalFailed := "Error retrieving information. Please try again later."
  const Separator := "\n\n"

  /** Only the first `TopDocuments` documents are read. */
  const TopDocuments := 2
  /** A document counts only when its stripped content is longer than this. */
  const MinimumContent := 50
  /** At most this many characters of a document are kept. */
  const SnippetCap := 400

  /** The contribution of one document: its stripped content cut to 400 characters, if the stripped content is longer than 50. */
  function Snippet(pageContent: string): (r: Option<string>)
    ensures r.Some? <==> |Strip(pageContent)| > MinimumContent
    ensures r.Some? ==> MinimumContent < |r.value| <= SnippetCap && StartsWith(Strip(pageContent), r.value)
    ensures r.Some? && |Strip(pageContent)| <= SnippetCap ==> r.value == Strip(pageContent)
  {
    var content := Strip(pageContent);
    if |content| > MinimumContent then Some(Take(content, SnippetCap)) else None
  }

  /** The contributions of a list of documents, in order. */
  function Snippets(docs: seq<string>): (r: seq<string>)
    ensures |r| <= |docs|
  {
    if docs == [] then []
    else
      var rest := Snippets(docs[..|docs| - 1]);
      match Snippet(docs[|docs| - 1])
      case Some(piece) => rest + [piece]
      case None => rest
  }

  /** Appending a document appends its contribution, if any. */
  lemma SnippetsSnoc(init: seq<string>, d: string)
    ensures Snippets(init + [d]) == Snippets(init) + (if Snippet(d).Some? then [Snippet(d).value] else [])
  {
    assert (init + [d])[..|init|] == init;
  }

  /** The combined snippets of the top documents, or the "nothing relevant" text when none qualifies. */
  function Combined(docs: seq<string>): (r: string)
    ensures r == NothingRelevant <==> Snippets(Take(docs, TopDocuments)) == []
  {
    var pieces := Snippets(Take(docs, TopDocuments));
    if pieces == [] then NothingRelevant
    else
      SnippetsComeFromDocuments(Take(docs, TopDocuments));
      assert pieces[0] in pieces;
      JoinIsAtLeastFirst(Separator, pieces);
      Join(Separator, pieces)
  }

  /**
   * `get_dietary_information`. `retriever` is `None` when the vector store
   * could not be built; the retriever itself gives `None` when it raises.
   */
  function DietaryInformation(retriever: Option<string -> Option<seq<string>>>, query: string): (r: string)
    ensures retriever.None? ==> r == NoRetriever
    ensures retriever.Some? && retriever.value(query) == None ==> r == RetrievalFailed
    ensures retriever.Some? && retriever.value(query) == Some([]) ==> r == NothingRetrieved
    ensures retriever.Some? && retriever.value(query).Some? && retriever.value(query).value != [] ==>
      r == Combined(retriever.value(query).value)
  {
    match retriever
    case None => NoRetriever
    case Some(retrieve) =>
      match retrieve(query)
      case None => RetrievalFailed
      case Some(docs) => if docs == [] then NothingRetrieved else Combined(docs)
  }

  /** Every contribution comes from a document. */
  lemma {:induction false} SnippetsComeFromDocuments(docs: seq<string>)
    ensures forall piece :: piece in Snippets(docs) ==> exists d :: d in docs && Snippet(d) == Some(piece)
    decreases |docs|
  {
    if docs != [] {
      var init, d := docs[..|docs| - 1], docs[|docs| - 1];
      SnippetsComeFromDocuments(init);
      assert docs == init + [d];
      SnippetsSnoc(init, d);
      forall piece | piece in Snippets(docs)
        ensures exists e :: e in docs && Snippet(e) == Some(piece)
      {
        if piece in Snippets(init) {
          var e :| e in init && Snippet(e) == Some(piece);
          assert e in docs;
        } else {
          assert d in docs;
        }
      }
    }
  }

  /** Every qualifying document contributes. */
  lemma {:induction false} QualifyingDocumentsContribute(docs: seq<string>)
    ensures forall d :: d in docs && Snippet(d).Some? ==> Snippet(d).value in Snippets(docs)
    decreases |docs|
  {
    if docs != [] {
      var init, last := docs[..|docs| - 1], docs[|docs| - 1];
      QualifyingDocumentsContribute(init);
      assert docs == init + [last];
      SnippetsSnoc(init, last);
      forall d | d in docs && Snippet(d).Some?
        ensures Snippet(d).value in Snippets(docs)
      {
        if d != last {
          assert d in init;
        }
      }
    }
  }

  /** There is no contribution exactly when no document qualifies. */
  lemma NoSnippetsExactly(docs: seq<string>)
    ensures Snippets(docs) == [] <==> forall d :: d in docs ==> Snippet(d).None?
  {
    SnippetsComeFromDocuments(docs);
    QualifyingDocumentsContribute(docs);
    if Snippets(docs) != [] {
      assert Snippets(docs)[0] in Snippets(docs);
    }
  }

  /** Only the first two documents matter: later ones never change the combined text. */
  lemma OnlyTopTwoCount(docs: seq<string>, later: seq<string>)
    requires |docs| >= TopDocuments
    ensures Combined(docs + later) == Combined(docs)
  {
    assert (docs + later)[..TopDocuments] == docs[..TopDocuments];
  }

  /** With two qualifying documents, the text is their snippets in retrieval order, separated by a blank line. */
  lemma TwoQualifyingDocuments(docs: seq<string>)
    requires |docs| >= 2 && Snippet(docs[0]).Some? && Snippet(docs[1]).Some?
    ensures Combined(docs) == Snippet(docs[0]).value + Separator + Snippet(docs[1]).value
  {
    var top := docs[..2];
    assert top == [] + [docs[0]] + [docs[1]];
    SnippetsSnoc([], docs[0]);
    SnippetsSnoc([docs[0]], docs[1]);
    var a, b := Snippet(docs[0]).value, Snippet(docs[1]).value;
    assert Snippets(top) == [a, b];
    assert Take(docs, TopDocuments) == top;
    assert [a, b][1..] == [b];
    assert Join(Separator, [a, b]) == a + Separator + Join(Separator, [b]);
  }

  /** With exactly one qualifying document among the top two, the text is that document's snippet alone. */
  lemma OneQualifyingDocument(docs: seq<string>, i: nat)
    requires i < |docs| && i < TopDocuments && Snippet(docs[i]).Some?
    requires forall j :: 0 <= j < |docs| && j < TopDocuments && j != i ==> Snippet(docs[j]).None?
    ensures Combined(docs) == Snippet(docs[i]).value
  {
    OnlySnippetOfTop(docs, i);
  }

  lemma OnlySnippetOfTop(docs: seq<string>, i: nat)
    requires i < |docs| && i < TopDocuments && Snippet(docs[i]).Some?
    requires forall j :: 0 <= j < |docs| && j < TopDocuments && j != i ==> Snippet(docs[j]).None?
    ensures Snippets(Take(docs, TopDocuments)) == [Snippet(docs[i]).value]
  {
    if |docs| == 1 {
      assert Take(docs, TopDocuments) == [] + [docs[0]];
      SnippetsSnoc([], docs[0]);
    } else {
      TopTwoSnippets(docs);
      if i == 0 {
        assert Snippet(docs[1]).None?;
      } else {
        assert Snippet(docs[0]).None?;
      }
    }
  }

  /** The contributions of the top two documents, each taken on its own. */
  lemma TopTwoSnippets(docs: seq<string>)
    requires |docs| >= 2
    ensures Snippets(Take(docs, TopDocuments)) ==
      (if Snippet(docs[0]).Some? then [Snippet(docs[0]).value] else []) +
      (if Snippet(docs[1]).Some? then [Snippet(docs[1]).value] else [])
  {
    var first := [docs[0]];
    assert Snippets(first) == (if Snippet(docs[0]).Some? then [Snippet(docs[0]).value] else []) by {
      SnippetsSnoc([], docs[0]);
      assert [] + [docs[0]] == first;
    }
    assert Take(docs, TopDocuments) == first + [docs[1]];
    SnippetsSnoc(first, docs[1]);
  }

  /** `get_dietary_information`, with its loop over the top documents. */
  method GetDietaryInformation(retriever: Option<string -> Option<seq<string>>>, query: string) returns (info: string)
    ensures info == DietaryInformation(retriever, query)
  {
    if retriever.None? {
      return NoRetriever;
    }
    var docs := retriever.value(query);
    if docs.None? {
      return RetrievalFailed;
    }
    if docs.value == [] {
      return NothingRetrieved;
    }
    var top := Take(docs.value, TopDocuments);
    var combined: seq<string> := [];
    var i := 0;
    while i < |top|
      invariant 0 <= i <= |top|
      invariant combined == Snippets(top[..i])
    {
      assert top[..i + 1] == top[..i] + [top[i]];
      SnippetsSnoc(top[..i], top[i]);
      var content := Strip(top[i]);
      if |content| > MinimumContent {
        combined := combined + [Take(content, SnippetCap)];
      }
      i := i + 1;
    }
    assert top[..i] == top;
    info := if combined == [] then NothingRelevant else Join(Separator, combined);
  }

  const AgentName := "diet_agent_simplified"
  const Apology := "I apologize, but I'm having trouble processing your nutrition question. Please try rephrasing your question or ask about specific dietary concerns."

  /** What the diet prompt is built from. */
  datatype DietPrompt = DietPrompt(profileText: string, logsText: string, contextText: string, query: string, dietaryInfo: string)

  /** The prompt inputs, with `str()` of each truthy argument and the fixed defaults otherwise. */
  function PromptFor(query: string, profile: Option<Record>, logs: Option<Record>, context: Option<string>,
                     repr: Record -> string, dietaryInfo: string): (p: DietPrompt)
    ensures profile.None? || profile.value == map[] ==> p.profileText == "No user profile available"
    ensures logs.None? || logs.value == map[] ==> p.logsText == "No previous symptoms logged"
    ensures context.None? || context.value == "" ==> p.contextText == "This is the first question in the conversation."
    ensures context.Some? && context.value != "" ==> p.contextText == context.value
    ensures profile.Some? && profile.value != map[] ==> p.profileText == repr(profile.value)
    ensures logs.Some? && logs.value != map[] ==> p.logsText == repr(logs.value)
    ensures p.query == query && p.dietaryInfo == dietaryInfo
  {
    DietPrompt(
      if profile.Some? && profile.value != map[] then repr(profile.value) else "No user profile available",
      if logs.Some? && logs.value != map[] then repr(logs.value) else "No previous symptoms logged",
      if context.Some? && context.value != "" then context.value else "This is the first question in the conversation.",
      query, dietaryInfo)
  }

  /**
   * `DietAgent.run`: the LLM's text with `user_context_used`, or the fixed
   * apology with `error` when the LLM raises. Both carry `agent_type`
   * "diet_agent_simplified".
   */
  function Run(query: string, profile: Option<Record>, logs: Option<Record>, context: Option<string>,
               repr: Record -> string, retriever: Option<string -> Option<seq<string>>>,
               llm: DietPrompt -> Option<string>): (r: AgentReply)
    ensures r.Dict?
    ensures var answer := llm(PromptFor(query, profile, logs, context, repr, DietaryInformation(retriever, query)));
      if answer.None? then r.entries == FailureReply(AgentName, Apology)
      else r.entries == AnswerReply(AgentName, answer.value)
    ensures var answer := llm(PromptFor(query, profile, logs, context, repr, DietaryInformation(retriever, query)));
      OutputKey in r.entries && r.entries[OutputKey] == Str(if answer.Some? then answer.value else Apology)
  {
    match llm(PromptFor(query, profile, logs, context, repr, DietaryInformation(retriever, query)))
    case None => Dict(FailureReply(AgentName, Apology))
    case Some(answer) => Dict(AnswerReply(AgentName, answer))
  }
}
