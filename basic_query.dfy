/**
 * The basic-query agent: the symptom-log summary, the age written into the
 * caller's profile, the short-reply test and the greeting instruction that
 * go into its prompt.
 */
module BasicQuery {
  import opened Wrappers
  import opened Strings
  import opened AgentTypes

  /**
   * One cell of a user's log row. `Parsed` holds what the cell's text
   * decodes to: for a symptom column the date list `ast.literal_eval`
   * returns, for the mood column the keys of the object `json.loads`
   * returns.
   */
  datatype Cell = NotANumber | Unparseable | Parsed(items: seq<string>)

  /** A user's log row, by column. */
  type LogRow = map<string, Cell>

  const SymptomColumns: seq<string> := ["Hot Flash", "Bloating", "Cramps", "Anxiety", "Back Pain", "Fatigue"]
  const MoodColumn := "mood"
  const NoLogs := "No recent logs found for this user."
  /** Written in two pieces so that the verifier can read its first character. */
  const NothingLogged := "No specific symptoms" + " or moods logged recently."

  /** A column holding a non-empty decoded list. */
  predicate Logged(row: LogRow, column: string) {
    column in row && row[column].Parsed? && |row[column].items| > 0
  }

  function SymptomLine(symptom: string, count: nat): string {
    "- Logged '" + symptom + "' " + NatToString(count) + " times recently."
  }

  function MoodLine(moods: seq<string>): string {
    "- Logged moods including: " + Join(", ", moods) + "."
  }

  /** The summary lines for `columns`, in column order. */
  function SymptomLines(row: LogRow, columns: seq<string>): seq<string> {
    if columns == [] then []
    else
      (if Logged(row, columns[0]) then [SymptomLine(columns[0], |row[columns[0]].items|)] else [])
      + SymptomLines(row, columns[1..])
  }

  /** One line per logged column, stating its entry count, and no other line. */
  lemma {:induction false} SymptomLinesExactly(row: LogRow, columns: seq<string>)
    ensures var r := SymptomLines(row, columns);
      |r| <= |columns| &&
      (forall k :: 0 <= k < |columns| && Logged(row, columns[k]) ==>
        SymptomLine(columns[k], |row[columns[k]].items|) in r) &&
      (forall line :: line in r ==>
        exists k :: 0 <= k < |columns| && Logged(row, columns[k]) && line == SymptomLine(columns[k], |row[columns[k]].items|)) &&
      (r == [] <==> forall k :: 0 <= k < |columns| ==> !Logged(row, columns[k]))
  {
    if columns != [] {
      SymptomLinesExactly(row, columns[1..]);
      assert forall k :: 1 <= k < |columns| ==> columns[k] == columns[1..][k - 1];
      var r := SymptomLines(row, columns);
      var rest := SymptomLines(row, columns[1..]);
      forall line | line in r
        ensures exists k :: 0 <= k < |columns| && Logged(row, columns[k]) && line == SymptomLine(columns[k], |row[columns[k]].items|)
      {
        if line !in rest {
          assert Logged(row, columns[0]) && line == SymptomLine(columns[0], |row[columns[0]].items|);
        } else {
          var j :| 0 <= j < |columns[1..]| && Logged(row, columns[1..][j]) &&
            line == SymptomLine(columns[1..][j], |row[columns[1..][j]].items|);
          assert columns[j + 1] == columns[1..][j];
        }
      }
    }
  }

  /** The lines of two runs of columns are the lines of the first run followed by those of the second. */
  lemma {:induction false} SymptomLinesAppend(row: LogRow, a: seq<string>, b: seq<string>)
    ensures SymptomLines(row, a + b) == SymptomLines(row, a) + SymptomLines(row, b)
    decreases |a|
  {
    if a == [] {
      assert a + b == b;
    } else {
      assert (a + b)[1..] == a[1..] + b;
      SymptomLinesAppend(row, a[1..], b);
    }
  }

  /** A column adds exactly one line, after the earlier columns' lines, when it is logged, and none otherwise. */
  lemma SymptomLinesSnoc(row: LogRow, columns: seq<string>, c: string)
    ensures SymptomLines(row, columns + [c]) ==
      SymptomLines(row, columns) + (if Logged(row, c) then [SymptomLine(c, |row[c].items|)] else [])
  {
    SymptomLinesAppend(row, columns, [c]);
    assert [c][1..] == [];
  }

  function MoodLines(row: LogRow): (r: seq<string>)
    ensures r == [] <==> !Logged(row, MoodColumn)
  {
    if Logged(row, MoodColumn) then [MoodLine(row[MoodColumn].items)] else []
  }

  /** `summarize_user_logs(log_data)`; `None` and an empty row are both falsy. */
  function LogSummary(logs: Option<LogRow>): (r: string)
    ensures logs.None? || logs.value == map[] ==> r == NoLogs
  {
    if logs.None? || logs.value == map[] then NoLogs
    else
      var lines := SymptomLines(logs.value, SymptomColumns) + MoodLines(logs.value);
      if lines == [] then NothingLogged else Join("\n", lines)
  }

  /** A non-empty row is summarised as "nothing logged" exactly when no symptom column and no mood is logged. */
  lemma NothingLoggedExactly(row: LogRow)
    requires row != map[]
    ensures LogSummary(Some(row)) == NothingLogged <==>
      (forall k :: 0 <= k < |SymptomColumns| ==> !Logged(row, SymptomColumns[k])) && !Logged(row, MoodColumn)
  {
    var lines := SymptomLines(row, SymptomColumns) + MoodLines(row);
    SymptomLinesExactly(row, SymptomColumns);
    if lines != [] {
      FirstLineIsBullet(row);
      JoinStartsWithFirst("\n", lines);
      assert Join("\n", lines)[0] == '-';
      assert NothingLogged[0] == 'N';
    }
  }

  /** The first summary line is a "- Logged ..." bullet. */
  lemma FirstLineIsBullet(row: LogRow)
    requires SymptomLines(row, SymptomColumns) + MoodLines(row) != []
    ensures var first := (SymptomLines(row, SymptomColumns) + MoodLines(row))[0]; |first| > 0 && first[0] == '-'
  {
    var symptomLines := SymptomLines(row, SymptomColumns);
    SymptomLinesExactly(row, SymptomColumns);
    if symptomLines != [] {
      var first := symptomLines[0];
      assert first in symptomLines;
      var k :| 0 <= k < |SymptomColumns| && Logged(row, SymptomColumns[k]) &&
        first == SymptomLine(SymptomColumns[k], |row[SymptomColumns[k]].items|);
    }
  }

  /** The loop over the symptom columns: one line per logged column, in column order. */
  method SymptomSummaryLines(row: LogRow, columns: seq<string>) returns (points: seq<string>)
    ensures points == SymptomLines(row, columns)
  {
    points := [];
    var i := 0;
    while i < |columns|
      invariant 0 <= i <= |columns|
      invariant points + SymptomLines(row, columns[i..]) == SymptomLines(row, columns)
    {
      var symptom := columns[i];
      assert columns[i..][1..] == columns[i + 1..];
      assert SymptomLines(row, columns[i..]) ==
        (if Logged(row, symptom) then [SymptomLine(symptom, |row[symptom].items|)] else [])
        + SymptomLines(row, columns[i + 1..]);
      if Logged(row, symptom) {
        points := points + [SymptomLine(symptom, |row[symptom].items|)];
      }
      i := i + 1;
    }
    assert columns[i..] == [];
  }

  /** `summarize_user_logs`: the symptom lines, then the mood line, joined by newlines. */
  method SummarizeUserLogs(logs: Option<LogRow>) returns (summary: string)
    ensures summary == LogSummary(logs)
  {
    if logs.None? || logs.value == map[] {
      return NoLogs;
    }
    var row := logs.value;
    var points := SymptomSummaryLines(row, SymptomColumns);
    if Logged(row, MoodColumn) {
      points := points + [MoodLine(row[MoodColumn].items)];
    }
    assert points == SymptomLines(row, SymptomColumns) + MoodLines(row);
    if points == [] {
      return NothingLogged;
    }
    summary := Join("\n", points);
  }

  /** A calendar date as `strptime` yields it. */
  datatype Date = Date(year: int, month: int, day: int)

  /** `a` falls on or before `b`. */
  predicate NotAfter(a: Date, b: Date) {
    a.year < b.year || (a.year == b.year && (a.month < b.month || (a.month == b.month && a.day <= b.day)))
  }

  /** The age formula: year difference, minus one while this year's birthday (by month and day) is still ahead. */
  function Age(now: Date, dob: Date): (age: int)
    ensures NotAfter(Date(dob.year + age, dob.month, dob.day), now)
    ensures !NotAfter(Date(dob.year + age + 1, dob.month, dob.day), now)
    ensures NotAfter(dob, now) ==> age >= 0
  {
    var birthdayAhead := now.month < dob.month || (now.month == dob.month && now.day < dob.day);
    now.year - dob.year - (if birthdayAhead then 1 else 0)
  }

  /** Ages never decrease as time passes. */
  lemma AgeMonotone(earlier: Date, later: Date, dob: Date)
    requires NotAfter(earlier, later)
    ensures Age(earlier, dob) <= Age(later, dob)
  {
    var a := Age(earlier, dob);
    assert NotAfter(Date(dob.year + a, dob.month, dob.day), later);
  }

  const AgeKey := "age"
  const DobKey := "dob"
  const NameKey := "name"

  /** The value `run` writes under 'age': the age for a parseable date string, 'unknown' otherwise. */
  function AgeValue(dob: Value, now: Date, parseDate: string -> Option<Date>): (r: Value)
    ensures r.Int? <==> dob.Str? && parseDate(dob.s).Some?
    ensures r.Int? ==> r.i == Age(now, parseDate(dob.s).value)
    ensures !r.Int? ==> r == Str("unknown")
  {
    if dob.Str? && parseDate(dob.s).Some? then Int(Age(now, parseDate(dob.s).value))
    else Str("unknown")
  }

  /** `user_profile.get('name', 'there') if user_profile else 'there'`. */
  function UserName(profile: Option<Record>): (r: string)
    ensures profile.None? || profile.value == map[] || NameKey !in profile.value ==> r == "there"
    ensures profile.Some? && NameKey in profile.value ==> r == ValueText(profile.value[NameKey])
  {
    if profile.Some? && profile.value != map[] && NameKey in profile.value then ValueText(profile.value[NameKey])
    else "there"
  }

  const ShortReplies: seq<string> := ["yes", "no", "ok", "okay", "sure", "maybe", "fine", "good", "bad", "hello", "hi"]

  /** `is_short_response`: at most three words, and the whole stripped, lower-cased query is a listed reply. */
  predicate IsShortResponse(query: string) {
    |Words(Strip(query))| <= 3 && Strip(Lower(query)) in ShortReplies
  }

  /** The word-count test adds nothing: a query is a short response exactly when its stripped, lower-cased form is listed. */
  lemma ShortResponseIsListedReply(query: string)
    ensures IsShortResponse(query) <==> Strip(Lower(query)) in ShortReplies
  {
    if Strip(Lower(query)) in ShortReplies {
      ListedReplyIsOneWord(query);
    }
  }

  lemma ListedReplyIsOneWord(query: string)
    requires Strip(Lower(query)) in ShortReplies
    ensures Words(Strip(query)) == [Strip(query)]
  {
    var t := Strip(query);
    StripLower(query);
    ListedReplyHasNoWhitespace(t);
    SingleWord(t);
  }

  lemma ListedReplyHasNoWhitespace(t: string)
    requires Lower(t) in ShortReplies
    ensures |t| > 0 && forall i :: 0 <= i < |t| ==> !IsWhitespace(t[i])
  {
    var w := Lower(t);
    ShortRepliesAreLetters();
    forall i | 0 <= i < |t| ensures !IsWhitespace(t[i]) {
      LowerKeepsWhitespace(t[i]);
      assert 'a' <= w[i] <= 'z';
    }
  }

  lemma ShortRepliesAreLetters()
    ensures forall j :: 0 <= j < |ShortReplies| ==>
      |ShortReplies[j]| > 0 && forall i :: 0 <= i < |ShortReplies[j]| ==> 'a' <= ShortReplies[j][i] <= 'z'
  {
  }

  /** The greeting instruction: first query before short reply before returning user. */
  function Greeting(isFirst: bool, query: string, name: string): (r: string)
    ensures isFirst ==> r == "This is " + name + "'s FIRST interaction. Welcome them warmly to Bloom."
    ensures !isFirst && IsShortResponse(query) ==>
      r == "User gave brief response '" + query + "'. Ask for more specific details."
    ensures !isFirst && !IsShortResponse(query) ==>
      r == "Returning user " + name + ". Use conversation history appropriately."
  {
    if isFirst then "This is " + name + "'s FIRST interaction. Welcome them warmly to Bloom."
    else if IsShortResponse(query) then "User gave brief response '" + query + "'. Ask for more specific details."
    else "Returning user " + name + ". Use conversation history appropriately."
  }

  /** What the prompt is built from. */
  datatype PromptFacts = PromptFacts(
    profile: Option<Record>,
    logSummary: string,
    context: string,
    query: string,
    greeting: string)

  /** `conversation_context or "No previous conversation history."`. */
  function ContextOrDefault(context: Option<string>): (r: string)
    ensures context.Some? && context.value != "" ==> r == context.value
    ensures context.None? || context.value == "" ==> r == "No previous conversation history."
  {
    if context.Some? && context.value != "" then context.value else "No previous conversation history."
  }

  /** The caller's profile dictionary, which `run` updates in place. */
  class ProfileDict {
    var entries: Record

    constructor(entries: Record)
      ensures this.entries == entries
    {
      this.entries := entries;
    }

    /**
     * The age step of `run`: 'age' is written from 'dob', and no other key
     * changes. A missing 'dob' raises a KeyError, which `run` does not
     * catch: `false`, nothing written.
     */
    method RecordAge(now: Date, parseDate: string -> Option<Date>) returns (ok: bool)
      modifies this
      ensures ok <==> DobKey in old(entries)
      ensures ok ==> entries == old(entries)[AgeKey := AgeValue(old(entries)[DobKey], now, parseDate)]
      ensures !ok ==> entries == old(entries)
    {
      if DobKey !in entries {
        return false;
      }
      entries := entries[AgeKey := AgeValue(entries[DobKey], now, parseDate)];
      ok := true;
    }
  }

  /**
   * `BasicQueryAgent.run`: the prompt facts go to the LLM (`llm`, `None` when
   * it raises) and its text comes back stripped. A non-empty profile gets its
   * 'age' first; one without 'dob' makes the call fail.
   */
  method Run(query: string, profile: ProfileDict?, logs: Option<LogRow>, context: Option<string>, isFirst: bool,
             now: Date, parseDate: string -> Option<Date>, llm: PromptFacts -> Option<string>)
    returns (reply: Option<string>)
    modifies profile
    ensures profile != null && old(profile.entries) == map[] ==> profile.entries == old(profile.entries)
    ensures profile != null && old(profile.entries) != map[] && DobKey !in old(profile.entries) ==>
      reply.None? && profile.entries == old(profile.entries)
    ensures profile != null && old(profile.entries) != map[] && DobKey in old(profile.entries) ==>
      profile.entries == old(profile.entries)[AgeKey := AgeValue(old(profile.entries)[DobKey], now, parseDate)]
    ensures reply.Some? ==> IsTrimmed(reply.value)
    ensures reply.Some? ==>
      var shown := if profile != null && profile.entries != map[] then Some(profile.entries) else None;
      var answer := llm(PromptFacts(shown, LogSummary(logs), ContextOrDefault(context), query,
        Greeting(isFirst, query, UserName(if profile != null then Some(old(profile.entries)) else None))));
      answer.Some? && reply.value == Strip(answer.value)
  {
    var name := UserName(if profile != null then Some(profile.entries) else None);
    var shown: Option<Record> := None;
    if profile != null && profile.entries != map[] {
      var ok := profile.RecordAge(now, parseDate);
      if !ok {
        assert profile.entries == old(profile.entries);
        return None;
      }
      shown := Some(profile.entries);
    }
    var summary := SummarizeUserLogs(logs);
    var greeting := Greeting(isFirst, query, name);
    var answer := llm(PromptFacts(shown, summary, ContextOrDefault(context), query, greeting));
    if answer.None? {
      return None;
    }
    reply := Some(Strip(answer.value));
  }
}
