/** The routine query agent of `agents/routine_query_agent.py`: the FAQs found
    for a question, the fixed replies for common topics, the language model's
    answer otherwise, and the follow-up suggestion and contact block appended
    to every reply. The model's reply is a parameter; the prompt it is given
    is not modelled. */
module RoutineAgent {
  import opened Common
  import opened Strings
  import opened Seqs
  import opened KeywordRules
  import opened AgentState
  import opened FhirUtils

  // ---------------------------------------------------------------- FAQs

  /** `search_faqs(query)`: the FAQs whose question or answer contains the query, ignoring case. */
  function FaqSearch(faqs: seq<Faq>, query: string): seq<Faq> {
    Filter(faqs, FaqQuery(Lower(query)))
  }

  /** The word-by-word search: each word longer than three characters adds its
      matches, and the search stops once three or more are gathered. */
  function WordMatches(faqs: seq<Faq>, words: seq<string>, found: seq<Faq>): seq<Faq>
    decreases |words|
  {
    if |words| == 0 then found
    else if |words[0]| <= 3 then WordMatches(faqs, words[1..], found)
    else
      var more := found + FaqSearch(faqs, words[0]);
      if |more| >= 3 then more else WordMatches(faqs, words[1..], more)
  }

  /** `_find_relevant_faqs`: the matches of the whole question or, when there
      are none, of its words; at most three. */
  function RelevantFaqs(faqs: seq<Faq>, question: string): (r: seq<Faq>)
    ensures |r| <= 3
  {
    var direct := FaqSearch(faqs, question);
    if |direct| > 0 then Take(direct, 3) else Take(WordMatches(faqs, Words(Lower(question)), []), 3)
  }

  /** Every FAQ the word search adds comes from the table and matches one of
      the long words. */
  lemma {:induction false} WordMatchesSpec(faqs: seq<Faq>, words: seq<string>, found: seq<Faq>, f: Faq)
    requires f in WordMatches(faqs, words, found)
    ensures f in found
      || (f in faqs && exists j :: 0 <= j < |words| && |words[j]| > 3 && FaqMatches(f, Lower(words[j])))
    decreases |words|
  {
    if |words| > 0 {
      if |words[0]| <= 3 {
        WordMatchesSpec(faqs, words[1..], found, f);
        if !(f in found) {
          var j :| 0 <= j < |words[1..]| && |words[1..][j]| > 3 && FaqMatches(f, Lower(words[1..][j]));
          assert words[j + 1] == words[1..][j];
        }
      } else {
        var more := found + FaqSearch(faqs, words[0]);
        if |more| < 3 {
          WordMatchesSpec(faqs, words[1..], more, f);
          if !(f in more) {
            var j :| 0 <= j < |words[1..]| && |words[1..][j]| > 3 && FaqMatches(f, Lower(words[1..][j]));
            assert words[j + 1] == words[1..][j];
          }
        }
      }
    }
  }

  /** Every FAQ found is in the table and matches the whole question or, when
      nothing matched the whole question, one of its words longer than three
      characters. */
  lemma RelevantFaqsSpec(faqs: seq<Faq>, question: string, f: Faq)
    requires f in RelevantFaqs(faqs, question)
    ensures f in faqs
    ensures FaqSearch(faqs, question) != [] ==> FaqMatches(f, Lower(question))
    ensures FaqSearch(faqs, question) == [] ==>
      exists w :: w in Words(Lower(question)) && |w| > 3 && FaqMatches(f, Lower(w))
  {
    var direct := FaqSearch(faqs, question);
    if |direct| == 0 {
      var words := Words(Lower(question));
      WordMatchesSpec(faqs, words, [], f);
      var j :| 0 <= j < |words| && |words[j]| > 3 && FaqMatches(f, Lower(words[j]));
      assert words[j] in words;
    }
  }

  /** The empty question occurs in every FAQ, so the first three FAQs are returned. */
  lemma EmptyQuestionTakesFirstThree(faqs: seq<Faq>)
    ensures RelevantFaqs(faqs, "") == Take(faqs, 3)
  {
    forall k | 0 <= k < |faqs|
      ensures FaqQuery(Lower(""))(faqs[k])
    {
      assert OccursAt(Lower(faqs[k].question), "", 0);
    }
    FilterAll(faqs, FaqQuery(Lower("")));
  }

  /** `_find_relevant_faqs` as the store search and the loop with its early exit. */
  method FindRelevantFaqs(store: FhirStore, question: string) returns (r: seq<Faq>)
    ensures r == RelevantFaqs(store.data.faqs, question)
  {
    var relevant := store.SearchFaqs(question);
    if |relevant| == 0 {
      var words := Words(Lower(question));
      var i := 0;
      while i < |words|
        invariant 0 <= i <= |words|
        invariant WordMatches(store.data.faqs, words, []) == WordMatches(store.data.faqs, words[i..], relevant)
      {
        assert words[i..][1..] == words[i + 1..];
        if |words[i]| > 3 {
          var faqs := store.SearchFaqs(words[i]);
          relevant := relevant + faqs;
          if |relevant| >= 3 {
            break;
          }
        }
        i := i + 1;
      }
    }
    r := Take(relevant, 3);
  }

  // ---------------------------------------------------------------- common topics

  /** The keys of `topic_responses` chosen by the branches of `_check_common_topics`. */
  const TopicRules: seq<Rule> := [
    Rule(["hours", "open", "closed", "time"], "office_hours"),
    Rule(["insurance", "coverage", "plan", "billing"], "insurance"),
    Rule(["prescription", "refill", "medication", "pills"], "prescription_refills"),
    Rule(["lab", "test", "results", "blood work"], "lab_results"),
    Rule(["bring", "prepare", "preparation", "what to bring"], "preparation")]

  /** The replies `topic_responses` holds, one per topic. */
  const OfficeHoursReply: string := Join([
      "Our office hours are:",
      "• Monday-Friday: 8:00 AM - 6:00 PM",
      "• Saturday: 9:00 AM - 2:00 PM",
      "• Sunday: Closed",
      "• Holidays: Closed"], "\n")

  const InsuranceReply: string := "We accept most major insurance plans including Blue Cross Blue Shield, Aetna, Cigna, "
      + "UnitedHealthcare, and Medicare. Please contact our office to verify your specific plan coverage."

  const RefillsReply: string := Join([
      "For prescription refills, you can:",
      "• Use our patient portal online",
      "• Call our office during business hours",
      "• Contact your pharmacy directly",
      "",
      "Please allow 2-3 business days for processing."], "\n")

  const LabResultsReply: string := Join([
      "Lab results are typically available within 2-3 business days. You can check your results through:",
      "• Our patient portal",
      "• Calling our office",
      "• MyChart app if enrolled"], "\n")

  const PreparationReply: string := Join([
      "For your appointment, please bring:",
      "• Valid photo ID",
      "• Insurance card",
      "• List of current medications",
      "• Any relevant medical records",
      "• Arrive 15 minutes early for check-in"], "\n")

  /** `topic_responses`. */
  const TopicResponses: map<string, string> := map[
    "office_hours" := OfficeHoursReply,
    "insurance" := InsuranceReply,
    "prescription_refills" := RefillsReply,
    "lab_results" := LabResultsReply,
    "preparation" := PreparationReply]

  /** The tag the `i`-th topic rule chooses is a key of `topic_responses`. */
  lemma TopicTagHasReply(i: nat)
    requires i < |TopicRules|
    ensures TopicRules[i].tag in TopicResponses
  {
    if i == 0 {
      assert TopicRules[i].tag == "office_hours" && "office_hours" in TopicResponses;
    } else if i == 1 {
      assert TopicRules[i].tag == "insurance" && "insurance" in TopicResponses;
    } else if i == 2 {
      assert TopicRules[i].tag == "prescription_refills" && "prescription_refills" in TopicResponses;
    } else if i == 3 {
      assert TopicRules[i].tag == "lab_results" && "lab_results" in TopicResponses;
    } else {
      assert TopicRules[i].tag == "preparation" && "preparation" in TopicResponses;
    }
  }

  /** `_check_common_topics`: the reply of the first topic whose words occur, else `None`. */
  function CommonTopic(message: string): (r: Option<string>)
    ensures r.None? <==> forall j :: 0 <= j < |TopicRules| ==> !AnyIn(Lower(message), TopicRules[j].keywords)
    ensures r.Some? ==> r.value in TopicResponses.Values
  {
    match FirstRule(Lower(message), TopicRules)
    case None => None
    case Some(i) => TopicTagHasReply(i); Some(TopicResponses[TopicRules[i].tag])
  }

  /** Any mention of "time" is answered with the office hours, even a question
      about test results. */
  lemma TimeMeansOfficeHours(message: string)
    requires Contains(Lower(message), "time")
    ensures CommonTopic(message) == Some(TopicResponses["office_hours"])
  {
    AnyInAt(Lower(message), TopicRules[0].keywords, 3);
  }

  // ---------------------------------------------------------------- replies

  /** `_get_fallback_response`. */
  const FallbackResponse := Join([
    "I apologize, but I'm having trouble accessing our information system right now. ",
    "",
    "For immediate assistance, please:",
    "",
    "📞 **Call our office:** (555) 123-4567",
    "🕐 **Office Hours:** Monday-Friday 8 AM - 6 PM, Saturday 9 AM - 2 PM",
    "🌐 **Online Portal:** patient.hospital.com",
    "📧 **Email:** info@hospital.com",
    "",
    "**Common Information:**",
    "• Office hours: Monday-Friday 8 AM - 6 PM, Saturday 9 AM - 2 PM",
    "• We accept most major insurance plans",
    "• Prescription refills: Allow 2-3 business days",
    "• Lab results: Available in 2-3 business days",
    "• For appointments: Call or use our online portal",
    "",
    "**Emergency:** If this is urgent, please call 911 or visit the emergency room.",
    "",
    "Is there anything specific I can help you with once our system is back online?"], "\n")

  /** `_generate_routine_response`: the model's text, or the fallback when it fails. */
  function GeneratedReply(reply: LlmReply): string {
    match reply
    case Reply(content) => content
    case Failure(_) => FallbackResponse
  }

  /** The branches of `_add_followup_suggestions`, in order. */
  const FollowupRules: seq<Rule> := [
    Rule(["appointment", "schedule", "book"],
         "💡 **Need help with appointments?** I can help you schedule, reschedule, or check your upcoming appointments."),
    Rule(["symptom", "pain", "feeling", "sick"],
         "⚠️ **For medical concerns:** Please consult with our healthcare providers. If urgent, don't hesitate to call or visit."),
    Rule(["billing", "payment", "cost"],
         "💰 **Billing questions?** Our billing department is available at (555) 123-4568 or billing@hospital.com."),
    Rule(["portal", "online", "website"],
         "🌐 **Online services:** Visit our patient portal at patient.hospital.com to access your records, schedule appointments, and more.")]

  const StillHaveQuestions :=
    "❓ **Still have questions?** Feel free to ask me anything else, or call our office at (555) 123-4567."

  const ContactBlock := Join([
    "",
    "",
    "📞 **Contact Us:**",
    "• Phone: (555) 123-4567",
    "• Emergency: 911",
    "• Online: patient.hospital.com"], "\n")

  /** The one suggestion chosen for a question. */
  function Suggestion(question: string): (r: string)
    ensures r == StillHaveQuestions || exists i :: 0 <= i < |FollowupRules| && FollowupRules[i].tag == r
  {
    Pick(Lower(question), FollowupRules, StillHaveQuestions)
  }

  /** `_add_followup_suggestions`. */
  function AddFollowupSuggestions(response: string, question: string): (r: string)
    ensures |r| >= |response| && r[..|response|] == response
  {
    response + "\n\n" + Suggestion(question) + ContactBlock
  }

  /** The reply is kept whole at the front, one suggestion follows, and the
      contact block always ends the text. */
  lemma FollowupEndsWithContacts(response: string, question: string)
    ensures var r := AddFollowupSuggestions(response, question);
      r[..|response|] == response && r[|r| - |ContactBlock|..] == ContactBlock
      && Contains(r, "\n\n" + Suggestion(question))
  {
    var r := AddFollowupSuggestions(response, question);
    assert r == (response + "\n\n" + Suggestion(question)) + ContactBlock;
    ContainsJoinedInside(response, "\n\n", Suggestion(question), ContactBlock);
  }

  /** A question about appointments gets the appointments suggestion whatever else it mentions. */
  lemma AppointmentQuestionSuggestion(question: string, k: nat)
    requires k < 3 && Contains(Lower(question), FollowupRules[0].keywords[k])
    ensures Suggestion(question) == FollowupRules[0].tag
  {
    PickKeyword(Lower(question), FollowupRules, StillHaveQuestions, k);
  }

  // ---------------------------------------------------------------- handler

  /** The state `handle_routine` returns for the FAQ table and the model's reply. */
  function RoutineOutcome(s: State, faqs: seq<Faq>, reply: LlmReply): State {
    var message := MessageOf(s);
    var response := match CommonTopic(message) case Some(t) => t case None => GeneratedReply(reply);
    s.(response := Some(AddFollowupSuggestions(response, message)), queryType := Some("routine"),
       faqsUsed := Some(|RelevantFaqs(faqs, message)|), nextAction := Some("routine_complete"))
  }

  /** Every routine reply counts the FAQs found, at most three, completes the query, keeps
      the classification, and starts with the topic reply when a topic word
      occurs and with the model's reply otherwise. */
  lemma RoutineOutcomeSpec(s: State, faqs: seq<Faq>, reply: LlmReply)
    ensures var r := RoutineOutcome(s, faqs, reply);
      var message := MessageOf(s);
      r.nextAction == Some("routine_complete") && r.queryType == Some("routine")
      && KeepsClassification(s, r) && r.error == s.error
      && r.faqsUsed == Some(|RelevantFaqs(faqs, message)|) && r.faqsUsed.value <= 3
      && r.response.Some?
      && (CommonTopic(message).Some? ==> r.response.value[..|CommonTopic(message).value|] == CommonTopic(message).value)
      && (CommonTopic(message).None? && reply.Reply? ==> r.response.value[..|reply.content|] == reply.content)
  {
  }

  /** `handle_routine`. */
  method HandleRoutine(s: State, store: FhirStore, reply: LlmReply) returns (r: State)
    ensures r == RoutineOutcome(s, store.data.faqs, reply)
  {
    var message := MessageOf(s);
    var relevant := FindRelevantFaqs(store, message);
    var topic := CommonTopic(message);
    var response := if topic.Some? then topic.value else GeneratedReply(reply);
    response := AddFollowupSuggestions(response, message);
    r := s.(response := Some(response), queryType := Some("routine"), faqsUsed := Some(|relevant|),
            nextAction := Some("routine_complete"));
  }

  /** The state the handler's `except` branch returns. No step of the handler
      raises in this model, so the branch is kept as its own function. */
  function RoutineError(s: State): (r: State)
    ensures KeepsClassification(s, r) && r.faqsUsed == s.faqsUsed
    ensures r.queryType == Some("routine_error") && r.nextAction == Some("routine_complete")
    ensures r.response == Some(FallbackResponse)
  {
    s.(response := Some(FallbackResponse), queryType := Some("routine_error"), nextAction := Some("routine_complete"))
  }

  // ---------------------------------------------------------------- health topics

  /** The table of `get_general_health_info`. */
  const HealthInfo: map<string, string> := map[
    "hydration" := "Staying hydrated is important for overall health. Aim for 8 glasses of water daily, more if "
      + "you're active or in hot weather. Signs of good hydration include pale yellow urine and feeling energetic.",
    "exercise" := "Regular exercise is beneficial for physical and mental health. Aim for at least 150 minutes of "
      + "moderate exercise weekly. Always consult your doctor before starting a new exercise program.",
    "sleep" := "Quality sleep is essential for health. Most adults need 7-9 hours nightly. Good sleep hygiene "
      + "includes consistent bedtimes, avoiding screens before bed, and creating a comfortable sleep environment.",
    "nutrition" := "A balanced diet includes fruits, vegetables, lean proteins, and whole grains. Limit processed "
      + "foods, sugar, and excessive sodium. Consult our nutritionist for personalized dietary advice.",
    "stress" := "Managing stress is important for overall wellness. Techniques include deep breathing, meditation, "
      + "regular exercise, and talking to friends or professionals. Don't hesitate to seek support when needed."]

  const ConsultProviders := "For specific health information, please consult with our healthcare providers who "
    + "can give you personalized advice based on your individual health needs."

  /** `get_general_health_info`: the table entry for the topic in any case, else the advice to consult. */
  function GetGeneralHealthInfo(topic: string): (r: string)
    ensures r == ConsultProviders <==> Lower(topic) !in HealthInfo
    ensures r != ConsultProviders ==> r in HealthInfo.Values
  {
    if Lower(topic) in HealthInfo then HealthInfo[Lower(topic)] else ConsultProviders
  }
}
