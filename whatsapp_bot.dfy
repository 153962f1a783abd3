/**
 * The WhatsApp bot: a per-number session dictionary driving a small
 * conversation state machine (ask for symptoms, remember them, answer with
 * them), in front of the WhatsApp orchestrator.
 */
module WhatsAppBot {
  import opened Wrappers
  import opened Strings
  import opened AgentTypes
  import opened ConversationHistory
  import opened Routing
  import opened WhatsAppOrchestrator

  /** `self.user_sessions`: phone number to session dictionary. */
  type Sessions = map<string, Record>

  const StateKey := "state"
  const PendingKey := "pending_query"
  const SymptomsKey := "symptoms"
  const ProfileKey := "profile"
  const ProvidedKey := "has_provided_symptoms"

  /** The values of `CONVERSATION_STATES`. */
  const InitialState := "initial"
  const WaitingState := "waiting_for_symptoms"
  const ProcessingState := "processing_query"

  /** Bodies answered with the welcome message. */
  const Greetings: seq<string> := ["hi", "hello", "start", "help"]
  /** Bodies that ask to replace the saved symptoms. */
  const UpdateCommands: seq<string> := ["update symptoms", "change symptoms", "new symptoms"]

  const EmptyReply := "Hi! I'm Bloom, your menopause health assistant. Please send me your question about menopause, diet, exercise, or health consultation."
  const ProcessingError := "I'm sorry, I encountered an error processing your request. Please try again or contact support."
  const SomethingWrong := "I'm sorry, something went wrong. Please try again later."
  const UpdateRequest := "update symptoms request"

  /** The two emoji in the source file are stored as the mojibake of their UTF-8 bytes; they are kept as such. */
  const Blossom := "\U{F0}\U{178}\U{152}\U{B8}"
  const Bullet := "\U{E2}\U{20AC}\U{A2}"

  const WelcomeMessage :=
    Blossom + " Hello! I am Bloom, your Menopause Health Assistant! " + Blossom + "\n\n"
    + "I'm here to help you with:\n"
    + Bullet + " General menopause questions\n"
    + Bullet + " Health consultations & symptoms\n"
    + Bullet + " Diet & nutrition advice\n"
    + Bullet + " Exercise recommendations\n\n"
    + "Just send me your question and I'll provide personalized guidance!\n"
    + "Simply type your question in any of these areas, and I'll provide personalized advice!"

  const AskForSymptoms :=
    "To provide you with personalized advice for your health consultation, diet, or exercise question, I'd like to know more about your current situation.\n\n"
    + "Please describe any symptoms you're experiencing or concerns you have. For example:\n"
    + Bullet + " Hot flashes, night sweats, irregular periods\n"
    + Bullet + " Mood changes, sleep problems, weight gain\n"
    + Bullet + " Last menstrual period date\n"
    + Bullet + " Any specific health concerns or goals\n\n"
    + Blossom + " Your symptoms will be saved for future queries. You can update them anytime by typing 'update symptoms'."

  const BasicKeywords: seq<string> := [
    "what is menopause", "menopause symptoms", "menopause stages",
    "when does menopause start", "perimenopause", "postmenopause",
    "menopause definition", "menopause causes", "menopause age",
    "what are hot flashes", "what are night sweats", "menopause basics"]
  const GeneralPatterns: seq<string> := [
    "what is", "what are", "define", "explain", "tell me about",
    "how long does", "when does", "why does"]
  const MenopauseTerms: seq<string> := ["menopause", "perimenopause", "postmenopause", "hot flash", "night sweat"]

  /** Some needle occurs in `text`. */
  predicate AnyContained(text: string, needles: seq<string>) {
    exists k :: 0 <= k < |needles| && Contains(text, needles[k])
  }

  /** `_is_basic_query`: a basic keyword, or a general question pattern together with a menopause term, in the lower-cased message. */
  predicate BasicQueryRule(message: string) {
    var lower := Lower(message);
    AnyContained(lower, BasicKeywords) || (AnyContained(lower, GeneralPatterns) && AnyContained(lower, MenopauseTerms))
  }

  /** Every message taken for a basic query mentions menopause, hot flashes or night sweats. */
  lemma BasicQueriesMentionMenopause(message: string)
    requires BasicQueryRule(message)
    ensures var lower := Lower(message);
      Contains(lower, "menopause") || Contains(lower, "hot flash") || Contains(lower, "night sweat")
  {
    var lower := Lower(message);
    if AnyContained(lower, BasicKeywords) {
      var k :| 0 <= k < |BasicKeywords| && Contains(lower, BasicKeywords[k]);
      var term := KeywordTerm(k);
      ContainsTransitive(lower, BasicKeywords[k], term);
    } else {
      var k :| 0 <= k < |MenopauseTerms| && Contains(lower, MenopauseTerms[k]);
      var t := MenopauseTerms[k];
      if k == 1 || k == 2 {
        PrefixedMenopause(k);
        ContainsTransitive(lower, t, "menopause");
      }
    }
  }

  /** "perimenopause" and "postmenopause" contain "menopause". */
  lemma PrefixedMenopause(k: nat)
    requires k == 1 || k == 2
    ensures Contains(MenopauseTerms[k], "menopause")
  {
    var t := MenopauseTerms[k];
    if k == 1 {
      assert t == "perimenopause";
    } else {
      assert t == "postmenopause";
    }
    assert t[4..13] == "menopause";
    ContainsAt(t, "menopause", 4);
  }

  /** The menopause term inside each basic keyword. */
  lemma KeywordTerm(k: nat) returns (term: string)
    requires k < |BasicKeywords|
    ensures term == "menopause" || term == "hot flash" || term == "night sweat"
    ensures Contains(BasicKeywords[k], term)
  {
    var kw := BasicKeywords[k];
    if k == 0 {
      assert kw == "what is menopause";
      term := "menopause";
      assert kw[8..17] == term;
      ContainsAt(kw, term, 8);
    } else if k == 3 {
      assert kw == "when does menopause start";
      term := "menopause";
      assert kw[10..19] == term;
      ContainsAt(kw, term, 10);
    } else if k == 4 || k == 5 {
      term := "menopause";
      assert kw[4..13] == term;
      ContainsAt(kw, term, 4);
    } else if k == 9 {
      assert kw == "what are hot flashes";
      term := "hot flash";
      assert kw[9..18] == term;
      ContainsAt(kw, term, 9);
    } else if k == 10 {
      assert kw == "what are night sweats";
      term := "night sweat";
      assert kw[9..20] == term;
      ContainsAt(kw, term, 9);
    } else {
      term := "menopause";
      assert kw[0..9] == term;
      ContainsAt(kw, term, 0);
    }
  }

  const MaxMessageLength: nat := 1500
  /** `max_length * 0.8` for the default `max_length`, which is exactly 1200. */
  const GoodBreakAfter: nat := 1200
  const TruncationNotice := "\n\n[Message truncated - ask for more details if needed]"

  /**
   * `_truncate_message`: a message over 1500 characters is cut after its
   * last period or newline among the first 1500 characters when that lies
   * past index 1200, otherwise cut at 1500 with "..."; a notice follows.
   */
  function TruncateMessage(message: string): (r: string)
    ensures |message| <= MaxMessageLength ==> r == message
    ensures |message| > MaxMessageLength ==>
      EndsWith(r, TruncationNotice) && |r| <= MaxMessageLength + 3 + |TruncationNotice|
    ensures |message| > MaxMessageLength ==>
      var kept := r[..|r| - |TruncationNotice|];
      (kept == message[..MaxMessageLength] + "..." &&
        forall i :: GoodBreakAfter < i < MaxMessageLength ==> message[i] != '.' && message[i] != '\n')
      || (GoodBreakAfter + 1 < |kept| <= MaxMessageLength && kept == message[..|kept|] &&
          (message[|kept| - 1] == '.' || message[|kept| - 1] == '\n') &&
          forall i :: |kept| <= i < MaxMessageLength ==> message[i] != '.' && message[i] != '\n')
  {
    if |message| <= MaxMessageLength then message
    else
      var truncated := message[..MaxMessageLength];
      var lastPeriod := RFind(truncated, '.');
      var lastNewline := RFind(truncated, '\n');
      var breakPoint := if lastPeriod >= lastNewline then lastPeriod else lastNewline;
      if breakPoint > GoodBreakAfter then
        var kept := message[..breakPoint + 1];
        var r := kept + TruncationNotice;
        assert r[..|r| - |TruncationNotice|] == kept;
        r
      else
        var kept := truncated + "...";
        var r := kept + TruncationNotice;
        assert r[..|r| - |TruncationNotice|] == kept;
        r
  }

  /** The id a phone number is known by: `from_number` without "whatsapp:" and "+". */
  function UserIdOf(fromNumber: string): (r: string)
    ensures forall i :: 0 <= i < |r| ==> r[i] != '+'
  {
    ReplaceAllRemovesChar(ReplaceAll(fromNumber, "whatsapp:", ""), '+');
    ReplaceAll(ReplaceAll(fromNumber, "whatsapp:", ""), "+", "")
  }

  /** The session a new number starts with. */
  const DefaultSession: Record := map[
    StateKey := Str(InitialState), PendingKey := Null, SymptomsKey := Null,
    ProfileKey := Null, ProvidedKey := Bool(false)]

  /** The sessions after `_get_user_session(phone)`: a default session is created for a new number. */
  function WithSession(s: Sessions, phone: string): (r: Sessions)
    ensures phone in r && r.Keys == s.Keys + {phone}
    ensures forall k :: k in s ==> r[k] == s[k]
    ensures ChangesOnly(s, r, phone)
    ensures phone !in s ==> r[phone] == DefaultSession
  {
    if phone in s then s else s[phone := DefaultSession]
  }

  /** The sessions after `_update_user_session(phone, updates)`: `dict.update` on the (possibly new) session. */
  function Updated(s: Sessions, phone: string, updates: Record): (r: Sessions)
    ensures r.Keys == s.Keys + {phone}
    ensures forall k :: k in s && k != phone ==> r[k] == s[k]
    ensures r[phone].Keys == WithSession(s, phone)[phone].Keys + updates.Keys
    ensures forall k :: k in updates ==> r[phone][k] == updates[k]
    ensures forall k :: k in WithSession(s, phone)[phone] && k !in updates ==> r[phone][k] == WithSession(s, phone)[phone][k]
  {
    var w := WithSession(s, phone);
    w[phone := w[phone] + updates]
  }

  /** A session the bot itself wrote: every key present, and a pending query whenever it waits for symptoms. */
  ghost predicate ValidSession(r: Record) {
    StateKey in r && PendingKey in r && SymptomsKey in r && ProfileKey in r && ProvidedKey in r &&
    (r[StateKey] == Str(InitialState) || (r[StateKey] == Str(WaitingState) && r[PendingKey].Str?))
  }

  ghost predicate AllValid(s: Sessions) {
    forall k :: k in s ==> ValidSession(s[k])
  }

  /** The text sent back for an orchestrator result: the truncated reply, or the processing error when it raised. */
  function ReplyText(result: Option<string>): (r: string)
    ensures result.None? ==> r == ProcessingError
    ensures result.Some? && |result.value| <= MaxMessageLength ==> r == result.value
  {
    match result
    case Some(t) => TruncateMessage(t)
    case None => ProcessingError
  }

  /** Which reply the bot sends: one of its fixed messages, or the text for an orchestrator result. */
  datatype Reply = EmptyBody | Welcome | Apology | AskSymptoms | Answer(result: Option<string>)

  /** The text sent back for a reply. */
  function ReplyMessage(reply: Reply): (r: string)
    ensures reply.Answer? ==> r == ReplyText(reply.result)
  {
    match reply
    case EmptyBody => EmptyReply
    case Welcome => WelcomeMessage
    case Apology => SomethingWrong
    case AskSymptoms => AskForSymptoms
    case Answer(result) => ReplyText(result)
  }

  /** The reply to a message, and the sessions and history after it. */
  datatype Step = Step(reply: Reply, sessions: Sessions, history: History)

  /**
   * `process_whatsapp_message` for a message `rawBody` from `fromNumber`,
   * given the sessions and the orchestrator's history before it. A
   * KeyError on a session (a registered profile has no 'state') becomes
   * the generic apology. Only the sender's session and the sender's
   * history can change.
   */
  function Transition(s: Sessions, m: History, fromNumber: string, rawBody: string, b: Backend): (t: Step)
    ensures s.Keys <= t.sessions.Keys
    ensures ChangesOnly(s, t.sessions, fromNumber)
    ensures ChangesOnly(m, t.history, UserIdOf(fromNumber))
    ensures AllWellFormed(m) ==> AllWellFormed(t.history)
  {
    var body := Strip(rawBody);
    if body == "" then Step(EmptyBody, s, m)
    else if Lower(body) in Greetings then Step(Welcome, s, m)
    else
      var w := WithSession(s, fromNumber);
      var t := SessionStep(w, m, fromNumber, body, b);
      ChangesOnlyTrans(s, w, t.sessions, fromNumber);
      t
  }

  /** A message that is neither empty nor a greeting, once the sender has a session in `s`. */
  function SessionStep(s: Sessions, m: History, fromNumber: string, body: string, b: Backend): (t: Step)
    requires fromNumber in s
    ensures t.sessions.Keys == s.Keys
    ensures ChangesOnly(s, t.sessions, fromNumber)
    ensures ChangesOnly(m, t.history, UserIdOf(fromNumber))
    ensures AllWellFormed(m) ==> AllWellFormed(t.history)
  {
    var session := s[fromNumber];
    if StateKey !in session then Step(Apology, s, m)
    else if session[StateKey] == Str(WaitingState) then WaitingStep(s, m, fromNumber, body, b)
    else if BasicQueryRule(body) then Step(Answer(BasicQueryOutcome(m, body, None, b).reply), s, m)
    else RoutedStep(s, m, fromNumber, body, b)
  }

  /**
   * The sessions once the answer to the symptom question is handled: the
   * answer saved as the symptoms, then the session back to the initial
   * state with no pending query, whether or not the query succeeded.
   */
  function AnsweredSessions(s: Sessions, fromNumber: string, body: string): (r: Sessions)
    requires fromNumber in s
    ensures r.Keys == s.Keys
    ensures ChangesOnly(s, r, fromNumber)
    ensures s[fromNumber].Keys <= r[fromNumber].Keys
    ensures var a := r[fromNumber];
      StateKey in a && SymptomsKey in a && ProvidedKey in a && PendingKey in a &&
      a[StateKey] == Str(InitialState) && a[SymptomsKey] == Str(body) &&
      a[ProvidedKey] == Bool(true) && a[PendingKey] == Null
  {
    var s2 := Updated(s, fromNumber, map[SymptomsKey := Str(body), StateKey := Str(ProcessingState), ProvidedKey := Bool(true)]);
    var u2 := map[StateKey := Str(InitialState), PendingKey := Null, ProvidedKey := Bool(true)];
    var s3 := Updated(s2, fromNumber, u2);
    assert WithSession(s2, fromNumber) == s2;
    assert s3[fromNumber][SymptomsKey] == Str(body);
    s3
  }

  /** The sender was asked for symptoms and `body` is the answer: run the pending query with it. */
  function WaitingStep(s: Sessions, m: History, fromNumber: string, body: string, b: Backend): (t: Step)
    requires fromNumber in s
    ensures t.sessions.Keys == s.Keys
    ensures ChangesOnly(s, t.sessions, fromNumber)
    ensures ChangesOnly(m, t.history, UserIdOf(fromNumber))
    ensures AllWellFormed(m) ==> AllWellFormed(t.history)
  {
    var session := s[fromNumber];
    if PendingKey !in session then
      Step(Apology, Updated(s, fromNumber, map[SymptomsKey := Str(body), StateKey := Str(ProcessingState), ProvidedKey := Bool(true)]), m)
    else
      var o := SymptomQueryOutcome(m, ValueText(session[PendingKey]), body, Some(UserIdOf(fromNumber)), b);
      Step(Answer(o.reply), AnsweredSessions(s, fromNumber, body), o.history)
  }

  /** A query that is not basic: answer it with the saved symptoms, or ask for them. */
  function RoutedStep(s: Sessions, m: History, fromNumber: string, body: string, b: Backend): (t: Step)
    requires fromNumber in s
    ensures t.sessions.Keys == s.Keys
    ensures ChangesOnly(s, t.sessions, fromNumber)
    ensures ChangesOnly(m, t.history, UserIdOf(fromNumber))
    ensures AllWellFormed(m) ==> AllWellFormed(t.history)
  {
    var session := s[fromNumber];
    if ProvidedKey !in session || (Truthy(session[ProvidedKey]) && SymptomsKey !in session) then
      Step(Apology, s, m)
    else if Truthy(session[ProvidedKey]) && Truthy(session[SymptomsKey]) then
      var o := SymptomQueryOutcome(m, body, ValueText(session[SymptomsKey]), Some(UserIdOf(fromNumber)), b);
      Step(Answer(o.reply), s, o.history)
    else if Lower(body) in UpdateCommands then
      Step(AskSymptoms, Updated(s, fromNumber, map[StateKey := Str(WaitingState), PendingKey := Str(UpdateRequest), ProvidedKey := Bool(false), SymptomsKey := Null]), m)
    else
      Step(AskSymptoms, Updated(s, fromNumber, map[StateKey := Str(WaitingState), PendingKey := Str(body)]), m)
  }

  /** A message that is neither empty nor a greeting goes to the sender's session, created if missing. */
  lemma TransitionOfMessage(s: Sessions, m: History, fromNumber: string, rawBody: string, b: Backend)
    requires Strip(rawBody) != "" && Lower(Strip(rawBody)) !in Greetings
    ensures Transition(s, m, fromNumber, rawBody, b) == SessionStep(WithSession(s, fromNumber), m, fromNumber, Strip(rawBody), b)
  {
  }

  /** Every step keeps the sessions the bot wrote well-formed: none is left half-processed or waiting without a pending query. */
  lemma TransitionKeepsValid(s: Sessions, m: History, fromNumber: string, rawBody: string, b: Backend)
    requires AllValid(s)
    ensures AllValid(Transition(s, m, fromNumber, rawBody, b).sessions)
  {
    var body := Strip(rawBody);
    if body != "" && Lower(body) !in Greetings {
      var w := WithSession(s, fromNumber);
      WithSessionKeepsValid(s, fromNumber);
      TransitionOfMessage(s, m, fromNumber, rawBody, b);
      SessionStepKeepsValid(w, m, fromNumber, body, b);
    } else {
      GreetingsChangeNothing(s, m, fromNumber, rawBody, b);
    }
  }

  /** A session created for a new number is well-formed. */
  lemma WithSessionKeepsValid(s: Sessions, phone: string)
    requires AllValid(s)
    ensures AllValid(WithSession(s, phone))
  {
    assert ValidSession(DefaultSession);
  }

  lemma SessionStepKeepsValid(s: Sessions, m: History, fromNumber: string, body: string, b: Backend)
    requires fromNumber in s && AllValid(s)
    ensures AllValid(SessionStep(s, m, fromNumber, body, b).sessions)
  {
    if s[fromNumber][StateKey] == Str(WaitingState) {
      WaitingStepKeepsValid(s, m, fromNumber, body, b);
    } else {
      RoutedStepKeepsValid(s, m, fromNumber, body, b);
    }
  }

  lemma WaitingStepKeepsValid(s: Sessions, m: History, fromNumber: string, body: string, b: Backend)
    requires fromNumber in s && AllValid(s)
    ensures AllValid(WaitingStep(s, m, fromNumber, body, b).sessions)
  {
    var t := WaitingStep(s, m, fromNumber, body, b);
    assert t.sessions == AnsweredSessions(s, fromNumber, body);
    assert ValidSession(t.sessions[fromNumber]);
    forall k | k in t.sessions
      ensures ValidSession(t.sessions[k])
    {
      if k != fromNumber {
        assert t.sessions[k] == s[k];
      }
    }
  }

  lemma RoutedStepKeepsValid(s: Sessions, m: History, fromNumber: string, body: string, b: Backend)
    requires fromNumber in s && AllValid(s)
    ensures AllValid(RoutedStep(s, m, fromNumber, body, b).sessions)
  {
    var session := s[fromNumber];
    var t := RoutedStep(s, m, fromNumber, body, b);
    if !(ProvidedKey !in session || (Truthy(session[ProvidedKey]) && SymptomsKey !in session))
      && !(Truthy(session[ProvidedKey]) && Truthy(session[SymptomsKey])) {
      var u := if Lower(body) in UpdateCommands
        then map[StateKey := Str(WaitingState), PendingKey := Str(UpdateRequest), ProvidedKey := Bool(false), SymptomsKey := Null]
        else map[StateKey := Str(WaitingState), PendingKey := Str(body)];
      assert t.sessions == Updated(s, fromNumber, u);
      assert ValidSession(t.sessions[fromNumber]);
    }
    forall k | k in t.sessions
      ensures ValidSession(t.sessions[k])
    {
      if k != fromNumber {
        assert t.sessions[k] == s[k];
      }
    }
  }

  /** An answer to the symptoms question is saved and returns the session to the initial state, whether or not the query behind it succeeded. */
  lemma SymptomsAnswerIsKept(s: Sessions, m: History, fromNumber: string, rawBody: string, b: Backend)
    requires fromNumber in s && ValidSession(s[fromNumber]) && s[fromNumber][StateKey] == Str(WaitingState)
    requires Strip(rawBody) != "" && Lower(Strip(rawBody)) !in Greetings
    ensures var r := Transition(s, m, fromNumber, rawBody, b).sessions[fromNumber];
      r[StateKey] == Str(InitialState) && r[SymptomsKey] == Str(Strip(rawBody)) &&
      r[ProvidedKey] == Bool(true) && r[PendingKey] == Null
  {
    var body := Strip(rawBody);
    assert WithSession(s, fromNumber) == s;
    TransitionOfMessage(s, m, fromNumber, rawBody, b);
    assert Transition(s, m, fromNumber, rawBody, b) == WaitingStep(s, m, fromNumber, body, b);
    assert WaitingStep(s, m, fromNumber, body, b).sessions == AnsweredSessions(s, fromNumber, body);
  }

  /**
   * A well-formed session moves to waiting for symptoms only when it holds
   * no saved symptoms, the reply is then the request for symptoms, and the
   * history is untouched.
   */
  lemma WaitsOnlyWithoutSavedSymptoms(s: Sessions, m: History, fromNumber: string, rawBody: string, b: Backend)
    requires fromNumber in s && ValidSession(s[fromNumber]) && s[fromNumber][StateKey] == Str(InitialState)
    requires var r := Transition(s, m, fromNumber, rawBody, b).sessions;
      fromNumber in r && StateKey in r[fromNumber] && r[fromNumber][StateKey] == Str(WaitingState)
    ensures !(Truthy(s[fromNumber][ProvidedKey]) && Truthy(s[fromNumber][SymptomsKey]))
    ensures Transition(s, m, fromNumber, rawBody, b).reply == AskSymptoms
    ensures Transition(s, m, fromNumber, rawBody, b).history == m
  {
    var body := Strip(rawBody);
    var t := Transition(s, m, fromNumber, rawBody, b);
    assert Str(InitialState) != Str(WaitingState);
    assert t.sessions[fromNumber] != s[fromNumber];
    TransitionOfKnownSender(s, m, fromNumber, rawBody, b);
    assert t == SessionStep(s, m, fromNumber, body, b);
    SessionStepWaits(s, m, fromNumber, body, b);
    assert t == RoutedStep(s, m, fromNumber, body, b);
    RoutedStepWaits(s, m, fromNumber, body, b);
  }

  /** The answer to the symptom question runs the pending query with it as the symptoms, for the sender's user id. */
  lemma WaitingRunsPendingQuery(s: Sessions, m: History, fromNumber: string, rawBody: string, b: Backend)
    requires fromNumber in s && ValidSession(s[fromNumber]) && s[fromNumber][StateKey] == Str(WaitingState)
    requires Strip(rawBody) != "" && Lower(Strip(rawBody)) !in Greetings
    ensures var t := Transition(s, m, fromNumber, rawBody, b);
      var o := SymptomQueryOutcome(m, ValueText(s[fromNumber][PendingKey]), Strip(rawBody), Some(UserIdOf(fromNumber)), b);
      t.reply == Answer(o.reply) && t.history == o.history
  {
    assert WithSession(s, fromNumber) == s;
    TransitionOfMessage(s, m, fromNumber, rawBody, b);
  }

  /**
   * A message that is not a basic query, from a session that is not waiting
   * and holds no saved symptoms, is kept as the pending query while the bot
   * asks for symptoms; a new sender starts from the default session.
   */
  lemma NonBasicQueryWaitsForSymptoms(s: Sessions, m: History, fromNumber: string, rawBody: string, b: Backend)
    requires var w := WithSession(s, fromNumber)[fromNumber];
      ValidSession(w) && w[StateKey] == Str(InitialState) && !(Truthy(w[ProvidedKey]) && Truthy(w[SymptomsKey]))
    requires Strip(rawBody) != "" && Lower(Strip(rawBody)) !in Greetings
    requires !BasicQueryRule(Strip(rawBody)) && Lower(Strip(rawBody)) !in UpdateCommands
    ensures var t := Transition(s, m, fromNumber, rawBody, b);
      var w := WithSession(s, fromNumber);
      t.reply == AskSymptoms && t.history == m &&
      t.sessions == w[fromNumber := w[fromNumber][StateKey := Str(WaitingState)][PendingKey := Str(Strip(rawBody))]]
  {
    var w := WithSession(s, fromNumber);
    TransitionOfMessage(s, m, fromNumber, rawBody, b);
    SessionStepRoutes(w, m, fromNumber, Strip(rawBody), b);
    RoutedStepAsksForSymptoms(w, m, fromNumber, Strip(rawBody), b);
  }

  /**
   * Without saved symptoms, an update command drops any symptoms, clears the
   * flag and waits for new ones with the fixed pending request.
   */
  lemma UpdateCommandAsksAgain(s: Sessions, m: History, fromNumber: string, rawBody: string, b: Backend)
    requires var w := WithSession(s, fromNumber)[fromNumber];
      ValidSession(w) && w[StateKey] == Str(InitialState) && !(Truthy(w[ProvidedKey]) && Truthy(w[SymptomsKey]))
    requires Lower(Strip(rawBody)) in UpdateCommands
    ensures var t := Transition(s, m, fromNumber, rawBody, b);
      var w := WithSession(s, fromNumber);
      t.reply == AskSymptoms && t.history == m &&
      t.sessions == w[fromNumber := w[fromNumber][StateKey := Str(WaitingState)][PendingKey := Str(UpdateRequest)]
                                                 [ProvidedKey := Bool(false)][SymptomsKey := Null]]
  {
    var w := WithSession(s, fromNumber);
    var body := Strip(rawBody);
    UpdateCommandIsNotBasic(body);
    TransitionOfMessage(s, m, fromNumber, rawBody, b);
    SessionStepRoutes(w, m, fromNumber, body, b);
    RoutedStepUpdates(w, m, fromNumber, body, b);
  }

  /** A session that is not waiting hands a message that is not a basic query to the routed branch. */
  lemma SessionStepRoutes(s: Sessions, m: History, fromNumber: string, body: string, b: Backend)
    requires fromNumber in s && StateKey in s[fromNumber] && s[fromNumber][StateKey] == Str(InitialState)
    requires !BasicQueryRule(body)
    ensures SessionStep(s, m, fromNumber, body, b) == RoutedStep(s, m, fromNumber, body, b)
  {
    assert Str(InitialState) != Str(WaitingState);
  }

  lemma RoutedStepAsksForSymptoms(s: Sessions, m: History, fromNumber: string, body: string, b: Backend)
    requires fromNumber in s && ValidSession(s[fromNumber])
    requires !(Truthy(s[fromNumber][ProvidedKey]) && Truthy(s[fromNumber][SymptomsKey])) && Lower(body) !in UpdateCommands
    ensures RoutedStep(s, m, fromNumber, body, b) ==
      Step(AskSymptoms, s[fromNumber := s[fromNumber][StateKey := Str(WaitingState)][PendingKey := Str(body)]], m)
  {
    var updates := map[StateKey := Str(WaitingState), PendingKey := Str(body)];
    UpdatedExisting(s, fromNumber, updates);
    PendingMerge(s[fromNumber], body);
  }

  lemma RoutedStepUpdates(s: Sessions, m: History, fromNumber: string, body: string, b: Backend)
    requires fromNumber in s && ValidSession(s[fromNumber])
    requires !(Truthy(s[fromNumber][ProvidedKey]) && Truthy(s[fromNumber][SymptomsKey])) && Lower(body) in UpdateCommands
    ensures RoutedStep(s, m, fromNumber, body, b) ==
      Step(AskSymptoms, s[fromNumber := s[fromNumber][StateKey := Str(WaitingState)][PendingKey := Str(UpdateRequest)]
                                                    [ProvidedKey := Bool(false)][SymptomsKey := Null]], m)
  {
    var updates := map[StateKey := Str(WaitingState), PendingKey := Str(UpdateRequest),
                       ProvidedKey := Bool(false), SymptomsKey := Null];
    UpdatedExisting(s, fromNumber, updates);
    UpdateRequestMerge(s[fromNumber]);
  }

  /** For a number that has a session, `Updated` merges the updates into it. */
  lemma UpdatedExisting(s: Sessions, phone: string, updates: Record)
    requires phone in s
    ensures Updated(s, phone, updates) == s[phone := s[phone] + updates]
  {
  }

  lemma PendingMerge(r: Record, body: string)
    ensures r + map[StateKey := Str(WaitingState), PendingKey := Str(body)] ==
      r[StateKey := Str(WaitingState)][PendingKey := Str(body)]
  {
  }

  lemma UpdateRequestMerge(r: Record)
    ensures r + map[StateKey := Str(WaitingState), PendingKey := Str(UpdateRequest), ProvidedKey := Bool(false), SymptomsKey := Null] ==
      r[StateKey := Str(WaitingState)][PendingKey := Str(UpdateRequest)][ProvidedKey := Bool(false)][SymptomsKey := Null]
  {
  }

  /** An update command is neither empty nor a greeting, and it is no basic query: none mentions a menopause term. */
  lemma UpdateCommandIsNotBasic(body: string)
    requires Lower(body) in UpdateCommands
    ensures body != "" && Lower(body) !in Greetings
    ensures !BasicQueryRule(body)
  {
    var lower := Lower(body);
    assert |lower| >= 12 by {
      assert lower == UpdateCommands[0] || lower == UpdateCommands[1] || lower == UpdateCommands[2];
    }
    assert forall g :: g in Greetings ==> |g| <= 5;
    UpdateCommandHasNoTerm(lower);
    if BasicQueryRule(body) {
      BasicQueriesMentionMenopause(body);
    }
  }

  lemma UpdateCommandHasNoTerm(command: string)
    requires command in UpdateCommands
    ensures !Contains(command, "menopause") && !Contains(command, "hot flash") && !Contains(command, "night sweat")
  {
    // Each term holds a character the command lacks: 'n' or 'u' of "menopause", 'f' of "hot flash", 'i' of "night sweat".
    if command == "update symptoms" {
      LacksTerms(command, 2);
    } else {
      LacksTerms(command, 6);
    }
  }

  lemma LacksTerms(command: string, k: nat)
    requires k < 9
    requires forall i :: 0 <= i < |command| ==>
      command[i] != "menopause"[k] && command[i] != "hot flash"[4] && command[i] != "night sweat"[1]
    ensures !Contains(command, "menopause") && !Contains(command, "hot flash") && !Contains(command, "night sweat")
  {
    MissingCharNotContained(command, "menopause", k);
    MissingCharNotContained(command, "hot flash", 4);
    MissingCharNotContained(command, "night sweat", 1);
  }

  /** For a sender who has a session, a message that changes it is neither empty nor a greeting. */
  lemma TransitionOfKnownSender(s: Sessions, m: History, fromNumber: string, rawBody: string, b: Backend)
    requires fromNumber in s
    ensures var t := Transition(s, m, fromNumber, rawBody, b);
      t.sessions[fromNumber] != s[fromNumber] ==> t == SessionStep(s, m, fromNumber, Strip(rawBody), b)
  {
    var body := Strip(rawBody);
    if body == "" || Lower(body) in Greetings {
      GreetingsChangeNothing(s, m, fromNumber, rawBody, b);
    } else {
      assert WithSession(s, fromNumber) == s;
      TransitionOfMessage(s, m, fromNumber, rawBody, b);
    }
  }

  lemma SessionStepWaits(s: Sessions, m: History, fromNumber: string, body: string, b: Backend)
    requires fromNumber in s && ValidSession(s[fromNumber]) && s[fromNumber][StateKey] == Str(InitialState)
    ensures var t := SessionStep(s, m, fromNumber, body, b);
      t.sessions[fromNumber] != s[fromNumber] ==> t == RoutedStep(s, m, fromNumber, body, b)
  {
    assert Str(InitialState) != Str(WaitingState);
  }

  lemma RoutedStepWaits(s: Sessions, m: History, fromNumber: string, body: string, b: Backend)
    requires fromNumber in s && ValidSession(s[fromNumber])
    ensures var t := RoutedStep(s, m, fromNumber, body, b);
      t.sessions[fromNumber][StateKey] == Str(WaitingState) && s[fromNumber][StateKey] != Str(WaitingState) ==>
        !(Truthy(s[fromNumber][ProvidedKey]) && Truthy(s[fromNumber][SymptomsKey])) &&
        t.reply == AskSymptoms && t.history == m
  {
  }

  /** An empty message or a greeting is answered before any session lookup: no session is created or changed, and the history is untouched. */
  lemma GreetingsChangeNothing(s: Sessions, m: History, fromNumber: string, rawBody: string, b: Backend)
    requires Strip(rawBody) == "" || Lower(Strip(rawBody)) in Greetings
    ensures Transition(s, m, fromNumber, rawBody, b).sessions == s
    ensures Transition(s, m, fromNumber, rawBody, b).history == m
    ensures Transition(s, m, fromNumber, rawBody, b).reply in {EmptyBody, Welcome}
  {
  }

  /** While symptoms are saved, an "update symptoms" command does not reach the update branch: the session stays as it was. */
  lemma UpdateIgnoredWhileSymptomsSaved(s: Sessions, m: History, fromNumber: string, rawBody: string, b: Backend)
    requires fromNumber in s && ValidSession(s[fromNumber]) && s[fromNumber][StateKey] == Str(InitialState)
    requires Truthy(s[fromNumber][ProvidedKey]) && Truthy(s[fromNumber][SymptomsKey])
    requires Lower(Strip(rawBody)) in UpdateCommands
    ensures Transition(s, m, fromNumber, rawBody, b).sessions == s
  {
    var body := Strip(rawBody);
    if body == "" || Lower(body) in Greetings {
      GreetingsChangeNothing(s, m, fromNumber, rawBody, b);
    } else {
      assert WithSession(s, fromNumber) == s;
      TransitionOfMessage(s, m, fromNumber, rawBody, b);
      SavedSymptomsKeepSession(s, m, fromNumber, body, b);
    }
  }

  /** While symptoms are saved and the session is not waiting, no message changes the sessions. */
  lemma SavedSymptomsKeepSession(s: Sessions, m: History, fromNumber: string, body: string, b: Backend)
    requires fromNumber in s && ValidSession(s[fromNumber]) && s[fromNumber][StateKey] == Str(InitialState)
    requires Truthy(s[fromNumber][ProvidedKey]) && Truthy(s[fromNumber][SymptomsKey])
    ensures SessionStep(s, m, fromNumber, body, b).sessions == s
  {
    assert s[fromNumber][StateKey] != Str(WaitingState);
    assert RoutedStep(s, m, fromNumber, body, b).sessions == s;
  }

  /** After `register_user_profile` with a profile lacking 'state', every message other than an empty one or a greeting is answered with the generic apology and changes nothing. */
  lemma RegisteredProfileIsRejected(s: Sessions, m: History, fromNumber: string, profile: Record, rawBody: string, b: Backend)
    requires StateKey !in profile
    requires Strip(rawBody) != "" && Lower(Strip(rawBody)) !in Greetings
    ensures var t := Transition(s[fromNumber := profile], m, fromNumber, rawBody, b);
      t.reply == Apology && t.sessions == s[fromNumber := profile] && t.history == m
  {
  }

  class WhatsAppBot {
    /** `self.user_sessions`. */
    var userSessions: Sessions
    /** `self.orchestrator`. */
    const orchestrator: WhatsAppOrchestrator

    constructor()
      ensures userSessions == map[]
      ensures fresh(orchestrator) && fresh(orchestrator.history)
      ensures orchestrator.history.conversations == map[] && orchestrator.history.Valid()
    {
      userSessions := map[];
      orchestrator := new WhatsAppOrchestrator();
    }

    /** `_get_user_session(phone_number)`. */
    method GetUserSession(phone: string) returns (session: Record)
      modifies this
      ensures userSessions == WithSession(old(userSessions), phone)
      ensures session == userSessions[phone]
    {
      if phone !in userSessions {
        userSessions := userSessions[phone := DefaultSession];
      }
      session := userSessions[phone];
    }

    /** `_update_user_session(phone_number, updates)`. */
    method UpdateUserSession(phone: string, updates: Record)
      modifies this
      ensures userSessions == Updated(old(userSessions), phone, updates)
    {
      var session := GetUserSession(phone);
      userSessions := userSessions[phone := session + updates];
    }

    /** `_get_user_data(phone_number)`: the stored dictionary, if any. */
    method GetUserData(phone: string) returns (data: Option<Record>)
      ensures data.Some? <==> phone in userSessions
      ensures data.Some? ==> data.value == userSessions[phone]
    {
      data := if phone in userSessions then Some(userSessions[phone]) else None;
    }

    /** `_save_user_data(phone_number, user_data)`: replaces the whole session. */
    method SaveUserData(phone: string, data: Record)
      modifies this
      ensures userSessions == old(userSessions)[phone := data]
    {
      userSessions := userSessions[phone := data];
    }

    /** `register_user_profile(phone_number, profile_data)`: the profile becomes the session; always true. */
    method RegisterUserProfile(phone: string, profile: Record) returns (ok: bool)
      modifies this
      ensures userSessions == old(userSessions)[phone := profile] && ok
    {
      SaveUserData(phone, profile);
      ok := true;
    }

    /** `_is_basic_query(message)`, with its keyword loop and its two `any` scans. */
    method IsBasicQuery(message: string) returns (basic: bool)
      ensures basic == BasicQueryRule(message)
    {
      var lower := Lower(message);
      basic := FindAny(lower, BasicKeywords);
      if basic {
        return;
      }
      var general := FindAny(lower, GeneralPatterns);
      var term := FindAny(lower, MenopauseTerms);
      basic := general && term;
    }

    /** `process_whatsapp_message()` for the webhook's `From` and `Body`. */
    method ProcessWhatsAppMessage(fromNumber: string, rawBody: string, b: Backend) returns (reply: string)
      modifies this, orchestrator.history
      ensures reply == ReplyMessage(Transition(old(userSessions), old(orchestrator.history.conversations), fromNumber, rawBody, b).reply)
      ensures userSessions == Transition(old(userSessions), old(orchestrator.history.conversations), fromNumber, rawBody, b).sessions
      ensures orchestrator.history.conversations ==
        Transition(old(userSessions), old(orchestrator.history.conversations), fromNumber, rawBody, b).history
      ensures old(orchestrator.history.Valid()) ==> orchestrator.history.Valid()
    {
      var body := Strip(rawBody);
      if body == "" {
        return ReplyMessage(EmptyBody);
      }
      if Lower(body) in Greetings {
        return ReplyMessage(Welcome);
      }
      TransitionOfMessage(userSessions, orchestrator.history.conversations, fromNumber, rawBody, b);
      var session := GetUserSession(fromNumber);
      var answer := AnswerInSession(fromNumber, session, body, b);
      reply := ReplyMessage(answer);
    }

    /** The rest of `process_whatsapp_message()` once the sender's session exists and `session` is it. */
    method AnswerInSession(fromNumber: string, session: Record, body: string, b: Backend) returns (answer: Reply)
      requires fromNumber in userSessions && session == userSessions[fromNumber]
      modifies this, orchestrator.history
      ensures var t := SessionStep(old(userSessions), old(orchestrator.history.conversations), fromNumber, body, b);
        answer == t.reply && userSessions == t.sessions && orchestrator.history.conversations == t.history
      ensures old(orchestrator.history.Valid()) ==> orchestrator.history.Valid()
    {
      if StateKey !in session {
        return Apology;
      }
      if session[StateKey] == Str(WaitingState) {
        answer := AnswerSymptoms(fromNumber, session, body, b);
        return;
      }
      var basic := IsBasicQuery(body);
      if basic {
        var result := orchestrator.RunBasicQueryWithoutUser(body, b);
        return Answer(result);
      }
      answer := AnswerRouted(fromNumber, session, body, b);
    }

    /** The branch of `process_whatsapp_message()` for a sender whose session waits for symptoms: `body` is the answer. */
    method AnswerSymptoms(fromNumber: string, session: Record, body: string, b: Backend) returns (answer: Reply)
      requires fromNumber in userSessions && session == userSessions[fromNumber]
      modifies this, orchestrator.history
      ensures var t := WaitingStep(old(userSessions), old(orchestrator.history.conversations), fromNumber, body, b);
        answer == t.reply && userSessions == t.sessions && orchestrator.history.conversations == t.history
      ensures old(orchestrator.history.Valid()) ==> orchestrator.history.Valid()
    {
      var user := UserIdOf(fromNumber);
      UpdateUserSession(fromNumber, map[SymptomsKey := Str(body), StateKey := Str(ProcessingState), ProvidedKey := Bool(true)]);
      if PendingKey !in session {
        return Apology;
      }
      var result := orchestrator.RunQueryWithSymptoms(ValueText(session[PendingKey]), body, Some(user), b);
      answer := Answer(result);
      UpdateUserSession(fromNumber, map[StateKey := Str(InitialState), PendingKey := Null, ProvidedKey := Bool(true)]);
    }

    /** The branch of `process_whatsapp_message()` for a message that is not a basic question, from a sender not waiting for symptoms. */
    method AnswerRouted(fromNumber: string, session: Record, body: string, b: Backend) returns (answer: Reply)
      requires fromNumber in userSessions && session == userSessions[fromNumber]
      modifies this, orchestrator.history
      ensures var t := RoutedStep(old(userSessions), old(orchestrator.history.conversations), fromNumber, body, b);
        answer == t.reply && userSessions == t.sessions && orchestrator.history.conversations == t.history
      ensures old(orchestrator.history.Valid()) ==> orchestrator.history.Valid()
    {
      if ProvidedKey !in session || (Truthy(session[ProvidedKey]) && SymptomsKey !in session) {
        return Apology;
      }
      if Truthy(session[ProvidedKey]) && Truthy(session[SymptomsKey]) {
        var result := orchestrator.RunQueryWithSymptoms(body, ValueText(session[SymptomsKey]), Some(UserIdOf(fromNumber)), b);
        return Answer(result);
      }
      if Lower(body) in UpdateCommands {
        UpdateUserSession(fromNumber, map[StateKey := Str(WaitingState), PendingKey := Str(UpdateRequest), ProvidedKey := Bool(false), SymptomsKey := Null]);
        return AskSymptoms;
      }
      UpdateUserSession(fromNumber, map[StateKey := Str(WaitingState), PendingKey := Str(body)]);
      answer := AskSymptoms;
    }
  }

  /** Scans `needles` in order and stops at the first one found in `text`. */
  method FindAny(text: string, needles: seq<string>) returns (found: bool)
    ensures found == AnyContained(text, needles)
  {
    var k := 0;
    while k < |needles|
      invariant 0 <= k <= |needles|
      invariant forall j :: 0 <= j < k ==> !Contains(text, needles[j])
    {
      if Contains(text, needles[k]) {
        return true;
      }
      k := k + 1;
    }
    return false;
  }
}
