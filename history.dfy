/**
 * The per-user conversation history that both orchestrators keep: a
 * dictionary from user id to the list of messages, stored as
 * (query, response) pairs and trimmed to the newest 20 messages, plus the
 * rendering of the last exchanges as context for the agents.
 */
module ConversationHistory {
  import opened Strings

  /** `conversation_history`: user id to messages, oldest first. */
  type History = map<string, seq<string>>

  const MaxMessages: nat := 20
  const DefaultExchanges: int := 2
  const NoHistoryText: string := "No previous conversation history."

  function Min(a: int, b: int): int { if a <= b then a else b }

  /** The user's messages, or the empty list the first save creates. */
  function Lookup(m: History, user: string): seq<string> {
    if user in m then m[user] else []
  }

  /** `history[-20:]` when the list is longer than 20, otherwise the list itself. */
  function Trimmed(h: seq<string>): (r: seq<string>)
    ensures |r| == Min(|h|, MaxMessages)
    ensures r == h[|h| - |r|..]
  {
    if |h| > MaxMessages then h[|h| - MaxMessages..] else h
  }

  /** What every stored history satisfies: at most 20 messages, whole pairs. */
  ghost predicate WellFormed(h: seq<string>) {
    |h| <= MaxMessages && |h| % 2 == 0
  }

  ghost predicate AllWellFormed(m: History) {
    forall u :: u in m ==> WellFormed(m[u])
  }

  /** `r` is `m` with at most the entry for `key` added or replaced. */
  ghost predicate ChangesOnly<K, V>(m: map<K, V>, r: map<K, V>, key: K) {
    r.Keys <= m.Keys + {key} && forall k :: k in m && k != key ==> k in r && r[k] == m[k]
  }

  /** Two changes confined to `key` make one change confined to `key`. */
  lemma ChangesOnlyTrans<K, V>(a: map<K, V>, b: map<K, V>, c: map<K, V>, key: K)
    requires ChangesOnly(a, b, key) && ChangesOnly(b, c, key)
    ensures ChangesOnly(a, c, key)
  {
  }

  /** `is_first_query`: no entry for the user, or an empty list. */
  predicate IsFirst(m: History, user: string) {
    user !in m || |m[user]| == 0
  }

  /** The history after `save_conversation_exchange(user, query, response)`. */
  function Saved(m: History, user: string, query: string, response: string): (r: History)
    ensures r.Keys == m.Keys + {user}
    ensures forall u :: u in m && u != user ==> r[u] == m[u]
    ensures ChangesOnly(m, r, user)
    ensures |r[user]| == Min(|Lookup(m, user)| + 2, MaxMessages)
    ensures r[user] == (Lookup(m, user) + [query, response])[|Lookup(m, user)| + 2 - |r[user]|..]
    ensures r[user][|r[user]| - 2..] == [query, response]
    ensures |Lookup(m, user)| % 2 == 0 ==> WellFormed(r[user])
    ensures !IsFirst(r, user)
  {
    var grown := Lookup(m, user) + [query, response];
    var kept := Trimmed(grown);
    assert |kept| == |grown| || |kept| == MaxMessages;
    assert kept[|kept| - 2..] == grown[|grown| - 2..];
    var r := m[user := kept];
    assert r[user] == kept;
    r
  }

  /** Saving an exchange keeps every stored history within 20 messages and made of whole pairs. */
  lemma SavedKeepsWellFormed(m: History, user: string, query: string, response: string)
    ensures AllWellFormed(m) ==> AllWellFormed(Saved(m, user, query, response))
  {
    if AllWellFormed(m) {
      var r := Saved(m, user, query, response);
      forall u | u in r
        ensures WellFormed(r[u])
      {
        if u != user {
          assert r[u] == m[u];
        }
      }
    }
  }

  /** Python's `h[start:]` for any integer `start`. */
  function SliceFrom<T>(h: seq<T>, start: int): (r: seq<T>)
    ensures |r| <= |h| && r == h[|h| - |r|..]
  {
    if start >= 0 then (if start <= |h| then h[start..] else [])
    else if -start <= |h| then h[|h| + start..]
    else h
  }

  /** `history[-(max_exchanges * 2):]`. */
  function RecentWindow(h: seq<string>, maxExchanges: int): (r: seq<string>)
    ensures |r| <= |h| && r == h[|h| - |r|..]
  {
    SliceFrom(h, -(maxExchanges * 2))
  }

  function Asked(message: string): string { "User previously asked: " + message }

  function Responded(message: string): string { "You previously responded: " + message }

  /** The context lines of a window: two lines per complete pair, a trailing single message dropped. */
  function ContextLines(recent: seq<string>): (r: seq<string>)
    ensures |r| == |recent| / 2 * 2
  {
    if |recent| < 2 then []
    else [Asked(recent[0]), Responded(recent[1])] + ContextLines(recent[2..])
  }

  /** `get_conversation_context(user, max_exchanges)`. */
  function ContextText(m: History, user: string, maxExchanges: int): (r: string)
    ensures IsFirst(m, user) ==> r == NoHistoryText
  {
    if user !in m then NoHistoryText
    else
      var recent := RecentWindow(m[user], maxExchanges);
      if recent == [] then NoHistoryText else Join("\n", ContextLines(recent))
  }

  // ---------------------------------------------------------------------------
  // Lemmas

  /** Each complete pair of the window becomes exactly one "asked" and one "responded" line, in order. */
  lemma {:induction false} ContextLinesAt(recent: seq<string>)
    ensures |ContextLines(recent)| == 2 * (|recent| / 2)
    ensures forall j :: 0 <= j < |recent| / 2 ==>
      ContextLines(recent)[2 * j] == Asked(recent[2 * j])
      && ContextLines(recent)[2 * j + 1] == Responded(recent[2 * j + 1])
    decreases |recent|
  {
    if |recent| >= 2 {
      var tail := recent[2..];
      ContextLinesAt(tail);
      var lines := ContextLines(recent);
      assert lines == [Asked(recent[0]), Responded(recent[1])] + ContextLines(tail);
      forall j | 1 <= j < |recent| / 2
        ensures lines[2 * j] == Asked(recent[2 * j]) && lines[2 * j + 1] == Responded(recent[2 * j + 1])
      {
        assert lines[2 * j] == ContextLines(tail)[2 * (j - 1)];
        assert lines[2 * j + 1] == ContextLines(tail)[2 * (j - 1) + 1];
        assert tail[2 * (j - 1)] == recent[2 * j] && tail[2 * (j - 1) + 1] == recent[2 * j + 1];
      }
    }
  }

  /** Extending an even window by one pair appends that pair's two lines. */
  lemma {:induction false} ContextLinesSnoc(s: seq<string>)
    requires |s| >= 2 && |s| % 2 == 0
    ensures ContextLines(s) == ContextLines(s[..|s| - 2]) + [Asked(s[|s| - 2]), Responded(s[|s| - 1])]
    decreases |s|
  {
    if |s| > 2 {
      ContextLinesSnoc(s[2..]);
      assert s[2..][..|s| - 4] == s[..|s| - 2][2..];
    }
  }

  /** A trailing message without its response adds no line. */
  lemma {:induction false} ContextLinesDropOdd(s: seq<string>)
    requires |s| % 2 == 1
    ensures ContextLines(s) == ContextLines(s[..|s| - 1])
    decreases |s|
  {
    if |s| > 2 {
      ContextLinesDropOdd(s[2..]);
      assert s[2..][..|s| - 3] == s[..|s| - 1][2..];
    }
  }

  /** For one or more exchanges the window is the newest `2 * maxExchanges` messages; for zero it is the whole history. */
  lemma RecentWindowIsNewest(h: seq<string>, maxExchanges: int)
    requires maxExchanges >= 0
    ensures maxExchanges == 0 ==> RecentWindow(h, maxExchanges) == h
    ensures maxExchanges >= 1 ==>
      RecentWindow(h, maxExchanges) == h[|h| - Min(2 * maxExchanges, |h|)..]
  {
    assert h[0..] == h;
  }

  /**
   * For a stored, nonempty history and a positive exchange count, the
   * context is the newest `min(maxExchanges, pairs)` exchanges, each as two
   * lines, joined by newlines.
   */
  lemma ContextRendersNewestPairs(m: History, user: string, maxExchanges: int)
    requires user in m && WellFormed(m[user]) && m[user] != [] && maxExchanges >= 1
    ensures var h := m[user];
      var recent := h[|h| - Min(2 * maxExchanges, |h|)..];
      && |recent| % 2 == 0 && |recent| >= 2
      && |ContextLines(recent)| == |recent| == 2 * Min(maxExchanges, |h| / 2)
      && ContextText(m, user, maxExchanges) == Join("\n", ContextLines(recent))
  {
    var h := m[user];
    RecentWindowIsNewest(h, maxExchanges);
    var recent := h[|h| - Min(2 * maxExchanges, |h|)..];
    ContextLinesAt(recent);
  }

  // ---------------------------------------------------------------------------
  // The dictionary itself, updated in place by the orchestrators

  class HistoryStore {
    var conversations: History

    constructor()
      ensures conversations == map[]
    {
      conversations := map[];
    }

    ghost predicate Valid()
      reads this
    {
      AllWellFormed(conversations)
    }

    /** `save_conversation_exchange`: the user's list (new if absent), the query and the response appended, trimmed to 20, stored back. */
    method SaveExchange(user: string, query: string, response: string)
      modifies this
      ensures conversations == Saved(old(conversations), user, query, response)
      ensures old(Valid()) ==> Valid()
    {
      var messages := if user in conversations then conversations[user] else [];
      ghost var grown := messages + [query, response];
      messages := messages + [query];
      messages := messages + [response];
      assert messages == grown;
      if |messages| > MaxMessages {
        messages := messages[|messages| - MaxMessages..];
      }
      assert messages == Trimmed(Lookup(conversations, user) + [query, response]);
      SavedKeepsWellFormed(conversations, user, query, response);
      conversations := conversations[user := messages];
    }

    /** `get_conversation_context`: the stepping loop over the window, two lines per pair. */
    method GetContext(user: string, maxExchanges: int) returns (text: string)
      ensures text == ContextText(conversations, user, maxExchanges)
    {
      if user !in conversations {
        return NoHistoryText;
      }
      var history := conversations[user];
      var recent := SliceFrom(history, -(maxExchanges * 2));
      if |recent| == 0 {
        return NoHistoryText;
      }
      var lines: seq<string> := [];
      var i := 0;
      while i < |recent|
        invariant 0 <= i <= |recent| + 1 && i % 2 == 0
        invariant lines == ContextLines(recent[..Min(i, |recent|)])
      {
        if i + 1 < |recent| {
          ContextLinesSnoc(recent[..i + 2]);
          assert recent[..i + 2][..i] == recent[..i];
          lines := lines + [Asked(recent[i]), Responded(recent[i + 1])];
        } else {
          ContextLinesDropOdd(recent[..i + 1]);
          assert recent[..i + 1][..i] == recent[..i];
        }
        i := i + 2;
      }
      assert recent[..|recent|] == recent;
      text := Join("\n", lines);
    }

    /** `is_first_query`. */
    method IsFirstQuery(user: string) returns (first: bool)
      ensures first <==> (user !in conversations || conversations[user] == [])
    {
      first := user !in conversations || |conversations[user]| == 0;
    }
  }
}
