/** The intent classifier of `agents/intent_classifier.py`: an empty-message
    default, a keyword shortcut to `emergency`, the language model's
    `INTENT:/CONFIDENCE:/URGENCY:/REASONING:` answer parsed line by line, a
    rule-based fallback when the model fails, and the lazily created singleton. */
module IntentClassifier {
  import opened Common
  import opened Strings
  import opened AgentState
  import opened Seqs

  // ---------------------------------------------------------------- keyword lists

  const EmergencyKeywords: seq<string> := [
    "chest pain", "heart attack", "shortness of breath", "difficulty breathing",
    "severe headache", "stroke", "unconscious", "bleeding heavily",
    "severe allergic reaction", "suicide", "overdose", "can't breathe",
    "severe pain", "emergency", "911", "ambulance"]

  const HighUrgencyKeywords: seq<string> := ["chest pain", "heart attack", "can't breathe", "unconscious", "suicide"]
  const MediumUrgencyKeywords: seq<string> := ["severe pain", "bleeding", "allergic reaction", "difficulty breathing"]

  const FallbackEmergencyWords: seq<string> := ["emergency", "urgent", "pain", "help"]
  const FallbackAppointmentWords: seq<string> := ["appointment", "schedule", "book", "cancel", "reschedule"]
  const FallbackRecordsWords: seq<string> := ["records", "history", "medication", "prescription", "test results"]

  /** The four intents the workflow routes on. */
  const KnownIntents: set<string> := {"emergency", "appointment", "medical_records", "routine"}

  // ---------------------------------------------------------------- classification

  /** The four keys a classification writes into the state. */
  datatype Classification = Classification(intent: string, confidence: int, urgency: int, reasoning: string)

  /** `{**state, **result}`. */
  function WithClassification(s: State, c: Classification): State {
    s.(intent := Some(c.intent), confidence := Some(c.confidence), urgency := Some(c.urgency), reasoning := Some(c.reasoning))
  }

  /** `_calculate_urgency` on the lower-cased message: 10 for a high-urgency
      keyword, else 8 for a medium one, else 6. */
  function CalculateUrgency(messageLower: string): (u: int)
    ensures u in {6, 8, 10}
    ensures u == 10 <==> AnyIn(messageLower, HighUrgencyKeywords)
    ensures u == 8 <==> !AnyIn(messageLower, HighUrgencyKeywords) && AnyIn(messageLower, MediumUrgencyKeywords)
  {
    if AnyIn(messageLower, HighUrgencyKeywords) then 10
    else if AnyIn(messageLower, MediumUrgencyKeywords) then 8
    else 6
  }

  /** `_fallback_classification`: the first of emergency, appointment, medical
      records whose words occur in the lower-cased message, else routine. */
  function FallbackIntent(messageLower: string): (intent: string)
    ensures intent in KnownIntents
  {
    if AnyIn(messageLower, FallbackEmergencyWords) then "emergency"
    else if AnyIn(messageLower, FallbackAppointmentWords) then "appointment"
    else if AnyIn(messageLower, FallbackRecordsWords) then "medical_records"
    else "routine"
  }

  function FallbackClassification(s: State): State {
    var intent := FallbackIntent(Lower(MessageOf(s)));
    WithClassification(s, Classification(intent, 6, if intent == "emergency" then 7 else 0, "Fallback rule-based classification"))
  }

  /** The fallback keeps every other key, always reports confidence 6, and gives
      urgency 7 exactly to an emergency; its priority is emergency, then
      appointment, then medical records, then routine. */
  lemma FallbackClassificationSpec(s: State)
    ensures var r := FallbackClassification(s); var m := Lower(MessageOf(s));
      r.intent.Some? && r.intent.value in KnownIntents
      && r.confidence == Some(6)
      && (r.urgency == Some(7) <==> r.intent == Some("emergency"))
      && (r.intent != Some("emergency") ==> r.urgency == Some(0))
      && (r.intent == Some("emergency") <==> AnyIn(m, FallbackEmergencyWords))
      && (r.intent == Some("appointment") <==> !AnyIn(m, FallbackEmergencyWords) && AnyIn(m, FallbackAppointmentWords))
      && (r.intent == Some("routine") <==>
            !AnyIn(m, FallbackEmergencyWords) && !AnyIn(m, FallbackAppointmentWords) && !AnyIn(m, FallbackRecordsWords))
      && r.message == s.message && r.patientId == s.patientId && r.context == s.context
      && r.response == s.response && r.error == s.error
  {
  }

  // ---------------------------------------------------------------- response parser

  /** The classification the parser starts from. */
  const DefaultClassification := Classification("routine", 5, 0, "Default classification")

  predicate StartsWith(s: string, p: string) {
    |p| <= |s| && s[..|p|] == p
  }

  /** The effect of one line of the model's answer: `None` where `int()` raises. */
  function ApplyLine(c: Classification, line: string): Option<Classification> {
    if StartsWith(line, "INTENT:") then Some(c.(intent := Lower(Strip(line[7..]))))
    else if StartsWith(line, "CONFIDENCE:") then
      match ParseInt(Strip(line[11..]))
      case None => None
      case Some(n) => Some(c.(confidence := n))
    else if StartsWith(line, "URGENCY:") then
      match ParseInt(Strip(line[8..]))
      case None => None
      case Some(n) => Some(c.(urgency := n))
    else if StartsWith(line, "REASONING:") then Some(c.(reasoning := Strip(line[10..])))
    else Some(c)
  }

  /** `_parse_classification_response`: the lines of the stripped answer in
      order, each one overwriting its field, stopping at the first that raises. */
  function ParseResponse(response: string): Classification {
    FoldUntil(ApplyLine, DefaultClassification, Split(Strip(response), '\n')).result
  }

  /** A line whose number does not parse ends the parse: what was set before it
      is kept and every later line is ignored. */
  lemma ParseStopsAtBadNumber(c: Classification, a: seq<string>, bad: string, b: seq<string>)
    requires (StartsWith(bad, "CONFIDENCE:") && ParseInt(Strip(bad[11..])).None?)
          || (StartsWith(bad, "URGENCY:") && ParseInt(Strip(bad[8..])).None?)
    ensures FoldUntil(ApplyLine, c, a + [bad] + b).result == FoldUntil(ApplyLine, c, a).result
  {
    if StartsWith(bad, "CONFIDENCE:") && ParseInt(Strip(bad[11..])).None? {
      ConfidenceIsNotIntent(bad);
      forall v ensures ApplyLine(v, bad).None? {
      }
    } else {
      UrgencyIsNotEarlier(bad);
      forall v ensures ApplyLine(v, bad).None? {
      }
    }
    FoldUntilStops(ApplyLine, c, a, bad, b);
  }

  /** The two prefixes differ in their first letter. */
  lemma ConfidenceIsNotIntent(line: string)
    requires StartsWith(line, "CONFIDENCE:")
    ensures !StartsWith(line, "INTENT:")
  {
    assert line[0] == line[..11][0] == 'C';
  }

  /** An `URGENCY:` line is none of the prefixes tested before it. */
  lemma UrgencyIsNotEarlier(line: string)
    requires StartsWith(line, "URGENCY:")
    ensures !StartsWith(line, "INTENT:") && !StartsWith(line, "CONFIDENCE:")
  {
    assert line[0] == line[..8][0] == 'U';
  }

  /** A line without a known prefix changes nothing. */
  lemma UnknownLineIgnored(c: Classification, a: seq<string>, u: string, b: seq<string>)
    requires !StartsWith(u, "INTENT:") && !StartsWith(u, "CONFIDENCE:") && !StartsWith(u, "URGENCY:") && !StartsWith(u, "REASONING:")
    ensures FoldUntil(ApplyLine, c, a + [u] + b) == FoldUntil(ApplyLine, c, a + b)
  {
    FoldUntilSkips(ApplyLine, c, a, u, b);
  }

  /** A later `INTENT:` line overrides what earlier lines set. */
  lemma LaterIntentWins(c: Classification, a: seq<string>, v: string)
    requires !FoldUntil(ApplyLine, c, a).halted
    ensures FoldUntil(ApplyLine, c, a + ["INTENT:" + v]).result.intent == Lower(Strip(v))
  {
    assert ("INTENT:" + v)[..7] == "INTENT:" && ("INTENT:" + v)[7..] == v;
    FoldUntilLast(ApplyLine, c, a, "INTENT:" + v);
  }

  /** The four lines a classification is written as, in the format the prompt asks for. */
  function AnswerLines(c: Classification): seq<string> {
    ["INTENT: " + c.intent, "CONFIDENCE: " + IntToString(c.confidence),
     "URGENCY: " + IntToString(c.urgency), "REASONING: " + c.reasoning]
  }

  function FormatClassification(c: Classification): string {
    Join(AnswerLines(c), "\n")
  }

  predicate Trimmed(s: string) {
    s == [] || (!IsSpace(s[0]) && !IsSpace(s[|s| - 1]))
  }

  /** Parsing the answer in the requested format gives back the classification,
      when its intent is already lower-cased and trimmed and its texts are single
      trimmed lines, the reasoning not empty. */
  lemma {:induction false} ParseFormatRoundTrip(c: Classification)
    requires Trimmed(c.intent) && IsLowered(c.intent) && Trimmed(c.reasoning) && c.reasoning != ""
    requires '\n' !in c.intent && '\n' !in c.reasoning
    ensures ParseResponse(FormatClassification(c)) == c
  {
    var text := FormatClassification(c);
    FormatIsTrimmed(c);
    FormatSplitsIntoLines(c);
    ParseFourLines(c, AnswerLines(c));
  }

  /** The four lines, parsed in order, set the four fields. */
  lemma ParseFourLines(c: Classification, lines: seq<string>)
    requires Trimmed(c.intent) && IsLowered(c.intent) && Trimmed(c.reasoning)
    requires lines == ["INTENT: " + c.intent, "CONFIDENCE: " + IntToString(c.confidence),
                       "URGENCY: " + IntToString(c.urgency), "REASONING: " + c.reasoning]
    ensures FoldUntil(ApplyLine, DefaultClassification, lines).result == c
  {
    var c1 := DefaultClassification.(intent := c.intent);
    var c2 := c1.(confidence := c.confidence);
    var c3 := c2.(urgency := c.urgency);
    LineSetsIntent(DefaultClassification, c.intent);
    LineSetsConfidence(c1, c.confidence);
    LineSetsUrgency(c2, c.urgency);
    LineSetsReasoning(c3, c.reasoning);
    FoldUntilSteps4(ApplyLine, lines[0], lines[1], lines[2], lines[3], DefaultClassification, c1, c2, c3, c);
  }

  /** The answer splits into its four lines. */
  lemma FormatSplitsIntoLines(c: Classification)
    requires '\n' !in c.intent && '\n' !in c.reasoning
    ensures Split(FormatClassification(c), '\n') == AnswerLines(c)
  {
    var lines := AnswerLines(c);
    NoNewlineInNumber(c.confidence);
    NoNewlineInNumber(c.urgency);
    forall k | 0 <= k < |lines| ensures '\n' !in lines[k] {
      if k == 0 {
        NoNewlineInPrefix("INTENT: ", c.intent);
      } else if k == 1 {
        NoNewlineInPrefix("CONFIDENCE: ", IntToString(c.confidence));
      } else if k == 2 {
        NoNewlineInPrefix("URGENCY: ", IntToString(c.urgency));
      } else {
        NoNewlineInPrefix("REASONING: ", c.reasoning);
      }
    }
    SplitJoin(lines, '\n');
  }

  lemma NoNewlineInPrefix(p: string, s: string)
    requires '\n' !in p && '\n' !in s
    ensures '\n' !in p + s
  {
  }

  /** The answer has no whitespace at either end. */
  lemma FormatIsTrimmed(c: Classification)
    requires Trimmed(c.reasoning) && c.reasoning != ""
    ensures Strip(FormatClassification(c)) == FormatClassification(c)
  {
    var lines := AnswerLines(c);
    var last := lines[3];
    JoinFirst(lines, "\n");
    JoinLast(lines, "\n");
    var t := FormatClassification(c);
    assert t == Join(lines, "\n");
    assert lines[0] == "INTENT: " + c.intent;
    assert t[0] == lines[0][0] == 'I';
    assert last[|last| - 1] == c.reasoning[|c.reasoning| - 1];
    assert !IsSpace(t[|t| - 1]);
    StripTrimmed(t);
  }

  lemma LineSetsIntent(c: Classification, v: string)
    requires Trimmed(v) && IsLowered(v)
    ensures ApplyLine(c, "INTENT: " + v) == Some(c.(intent := v))
  {
    var l := "INTENT: " + v;
    assert l[..7] == "INTENT:" && l[7..] == " " + v;
    StripLeadingSpace(v);
    LowerIsLowered(v);
  }

  lemma LineSetsConfidence(c: Classification, n: int)
    ensures ApplyLine(c, "CONFIDENCE: " + IntToString(n)) == Some(c.(confidence := n))
  {
    var l := "CONFIDENCE: " + IntToString(n);
    assert l[..11] == "CONFIDENCE:" && l[11..] == " " + IntToString(n);
    assert !StartsWith(l, "INTENT:") by { assert l[0] != "INTENT:"[0]; }
    StripLeadingSpace(IntToString(n));
    ParseIntOfIntToString(n);
  }

  lemma LineSetsUrgency(c: Classification, n: int)
    ensures ApplyLine(c, "URGENCY: " + IntToString(n)) == Some(c.(urgency := n))
  {
    var l := "URGENCY: " + IntToString(n);
    assert l[..8] == "URGENCY:" && l[8..] == " " + IntToString(n);
    assert !StartsWith(l, "INTENT:") by { assert l[0] != "INTENT:"[0]; }
    assert !StartsWith(l, "CONFIDENCE:") by { assert |l| < 11 || l[0] != "CONFIDENCE:"[0]; }
    StripLeadingSpace(IntToString(n));
    ParseIntOfIntToString(n);
  }

  lemma LineSetsReasoning(c: Classification, v: string)
    requires Trimmed(v)
    ensures ApplyLine(c, "REASONING: " + v) == Some(c.(reasoning := v))
  {
    var l := "REASONING: " + v;
    assert l[..10] == "REASONING:" && l[10..] == " " + v;
    assert !StartsWith(l, "INTENT:") by { assert l[0] != "INTENT:"[0]; }
    assert !StartsWith(l, "CONFIDENCE:") by { assert l[0] != "CONFIDENCE:"[0]; }
    assert !StartsWith(l, "URGENCY:") by { assert l[0] != "URGENCY:"[0]; }
    StripLeadingSpace(v);
  }

  lemma NoNewlineInNumber(n: int)
    ensures '\n' !in IntToString(n)
  {
    var s := IntToString(n);
    forall i | 0 <= i < |s| ensures s[i] != '\n' {
      IntToStringChars(n, i);
    }
  }

  lemma IntToStringChars(n: int, i: int)
    requires 0 <= i < |IntToString(n)|
    ensures IsDigit(IntToString(n)[i]) || IntToString(n)[i] == '-'
  {
    var m: nat := if n < 0 then -n else n;
    var d := NatToString(m);
    assert AllDigits(d);
    if n < 0 {
      assert IntToString(n) == "-" + d;
      if i > 0 {
        assert IntToString(n)[i] == d[i - 1];
      }
    } else {
      assert IntToString(n) == d;
    }
  }

  /** `_parse_classification_response`: the lines of the stripped answer in
      order; a bad number ends the loop and keeps what was already set. */
  method ParseClassificationResponse(response: string) returns (result: Classification)
    ensures result == ParseResponse(response)
  {
    var lines := Split(Strip(response), '\n');
    result := DefaultClassification;
    var i := 0;
    while i < |lines|
      invariant 0 <= i <= |lines|
      invariant FoldUntil(ApplyLine, DefaultClassification, lines) == FoldUntil(ApplyLine, result, lines[i..])
      decreases |lines| - i
    {
      FoldUntilNext(ApplyLine, result, lines, i);
      var next := ApplyLine(result, lines[i]);
      if next.None? {
        return;
      }
      result := next.value;
      i := i + 1;
    }
  }

  // ---------------------------------------------------------------- classify_intent

  /** The classification of an empty message. */
  const EmptyMessageClassification := Classification("routine", 10, 0, "Empty message defaulted to routine")

  /** The classification of a message holding an emergency keyword. */
  function KeywordEmergency(messageLower: string): Classification {
    Classification("emergency", 9, CalculateUrgency(messageLower), "Emergency keywords detected")
  }

  /** `classify_intent` with `reply` standing for the model's answer. */
  function Classify(s: State, reply: LlmReply): State {
    var message := MessageOf(s);
    if message == "" then
      WithClassification(s, EmptyMessageClassification)
    else if AnyIn(Lower(message), EmergencyKeywords) then
      WithClassification(s, KeywordEmergency(Lower(message)))
    else
      match reply
      case Failure(_) => FallbackClassification(s)
      case Reply(text) => WithClassification(s, ParseResponse(text))
  }

  method ClassifyIntent(s: State, reply: LlmReply) returns (r: State)
    ensures r == Classify(s, reply)
  {
    var message := MessageOf(s);
    if message == "" {
      return WithClassification(s, EmptyMessageClassification);
    }
    var messageLower := Lower(message);
    if AnyIn(messageLower, EmergencyKeywords) {
      return WithClassification(s, KeywordEmergency(messageLower));
    }
    match reply {
      case Failure(_) =>
        r := FallbackClassification(s);
      case Reply(text) =>
        var c := ParseClassificationResponse(text);
        r := WithClassification(s, c);
    }
  }

  /** An empty or missing message is routine with confidence 10 and urgency 0,
      whatever the model would say; nothing else in the state changes. */
  lemma EmptyMessageIsRoutine(s: State, reply: LlmReply)
    requires MessageOf(s) == ""
    ensures Classify(s, reply) == s.(intent := Some("routine"), confidence := Some(10), urgency := Some(0),
                                     reasoning := Some("Empty message defaulted to routine"))
  {
  }

  /** A message holding an emergency keyword, in any case, is an emergency with
      confidence 9 and urgency 6, 8 or 10, and the model's answer plays no part. */
  lemma EmergencyShortcut(s: State, reply: LlmReply, other: LlmReply)
    requires AnyIn(Lower(MessageOf(s)), EmergencyKeywords)
    ensures Classify(s, reply) == Classify(s, other)
    ensures var r := Classify(s, reply);
      r.intent == Some("emergency") && r.confidence == Some(9)
      && r.urgency.Some? && r.urgency.value in {6, 8, 10}
  {
  }

  /** When the model fails, the intent is always one the workflow routes to a
      specialist. */
  lemma FailureGivesKnownIntent(s: State, reason: string)
    ensures var r := Classify(s, Failure(reason));
      r.intent.Some? && r.intent.value in KnownIntents
      && r.confidence.Some? && r.confidence.value in {6, 9, 10}
  {
  }

  // ---------------------------------------------------------------- the singleton

  const MissingKeyMessage := "GROQ_API_KEY environment variable is required"

  /** The module-level `intent_classifier`, created on first use. Creation
      fails while the API key is unset or empty, and is retried on the next call. */
  class ClassifierSlot {
    var created: bool

    constructor()
      ensures !created
    {
      created := false;
    }

    /** `get_intent_classifier`: `None` when the classifier exists afterwards,
        else the message of the `ValueError` its constructor raised. */
    method GetIntentClassifier(apiKey: string) returns (failure: Option<string>)
      modifies this
      ensures created == (old(created) || apiKey != "")
      ensures failure.None? == created
      ensures failure.Some? ==> failure.value == MissingKeyMessage
    {
      if !created {
        if apiKey == "" {
          return Some(MissingKeyMessage);
        }
        created := true;
      }
      failure := None;
    }

    /** The module-level `classify_intent`: the classifier's answer, or the
        exception raised while creating it. */
    method ClassifyWithSingleton(s: State, apiKey: string, reply: LlmReply) returns (r: Attempt<State>)
      modifies this
      ensures created == (old(created) || apiKey != "")
      ensures r == if created then Returned(Classify(s, reply)) else Raised(MissingKeyMessage)
    {
      var failure := GetIntentClassifier(apiKey);
      if failure.Some? {
        return Raised(failure.value);
      }
      var result := ClassifyIntent(s, reply);
      r := Returned(result);
    }
  }
}
