/** The medical records agent of `agents/medical_records_agent.py`: the kind
    of request read off the message, the patient looked up in the store, and
    the reply rendered from the patient's history, medications and allergies.
    The agent builds a prompt for its language model but never calls it, so
    the model takes no reply here. The `require_authentication` decorator only
    logs and calls through, so the handler is modelled undecorated. */
module RecordsAgent {
  import opened Common
  import opened Strings
  import opened Seqs
  import opened KeywordRules
  import opened AgentState
  import opened FhirUtils

  // ---------------------------------------------------------------- request kind

  /** The branches of `_analyze_records_request`, in the order they are tried. */
  const RecordsRules: seq<Rule> := [
    Rule(["history", "medical history", "past", "conditions", "diagnoses"], "medical_history"),
    Rule(["medication", "medicine", "prescription", "pills", "drugs"], "medications"),
    Rule(["allergy", "allergies", "allergic", "reactions"], "allergies"),
    Rule(["test", "lab", "results", "blood work", "x-ray", "scan"], "test_results"),
    Rule(["summary", "overview", "complete", "all records"], "summary"),
    Rule(["update", "change", "modify", "correct"], "update")]

  function AnalyzeRecordsRequest(message: string): (t: string)
    ensures t in {"medical_history", "medications", "allergies", "test_results", "summary", "update", "general"}
  {
    Pick(Lower(message), RecordsRules, "general")
  }

  /** A request kind is chosen exactly when one of its words occurs and no word
      of an earlier kind does: asking to update one's medications is a
      medications request, not an update. */
  lemma RecordsRequestPrecedence(message: string, i: nat)
    requires i < |RecordsRules|
    ensures AnalyzeRecordsRequest(message) == RecordsRules[i].tag <==>
      AnyIn(Lower(message), RecordsRules[i].keywords)
      && forall j :: 0 <= j < i ==> !AnyIn(Lower(message), RecordsRules[j].keywords)
  {
    PickExactly(Lower(message), RecordsRules, "general", i);
  }

  /** Any message mentioning "history" is a medical history request. */
  lemma HistoryWordWins(message: string)
    requires Contains(Lower(message), "history")
    ensures AnalyzeRecordsRequest(message) == "medical_history"
  {
    PickKeyword(Lower(message), RecordsRules, "general", 0);
  }

  // ---------------------------------------------------------------- history

  const NoHistory := "Your medical records show no significant medical history on file. "
    + "If you believe this is incorrect, please contact our office to update your records."
  const HistoryHeader := "📋 **Your Medical History:**\n\n"
  const HistoryClosing := Join([
    "⚠️ **Important:** This information is for your reference. Please discuss any questions about your "
      + "medical history with your healthcare provider.",
    "",
    "🔄 **Need updates?** Contact our office if any information needs correction or if you have new "
      + "conditions to report."], "\n")

  function ConditionEntry(c: Record): string {
    "• **" + GetOr(c, "condition", "Unknown condition") + "**\n"
    + "  📅 Diagnosed: " + GetOr(c, "diagnosed", "Date not specified") + "\n"
    + "  📊 Status: " + Title(GetOr(c, "status", "Unknown")) + "\n\n"
  }

  function HistoryText(history: seq<Record>): string {
    if |history| == 0 then NoHistory
    else HistoryHeader + Concat(Map(history, ConditionEntry)) + HistoryClosing
  }

  /** Every condition on file is listed. */
  lemma HistoryListsEveryCondition(history: seq<Record>, k: nat)
    requires k < |history|
    ensures Contains(HistoryText(history), ConditionEntry(history[k]))
  {
    ListedInside(HistoryHeader, Map(history, ConditionEntry), k, HistoryClosing);
  }

  /** `_handle_medical_history_request`. */
  method HandleMedicalHistoryRequest(store: FhirStore, patientId: string) returns (text: string)
    ensures text == HistoryText(HistoryOf(store.data.patients, patientId))
  {
    var history := store.GetPatientMedicalHistory(patientId);
    if |history| == 0 {
      return NoHistory;
    }
    var entries := AppendEach(history, ConditionEntry);
    text := HistoryHeader + entries + HistoryClosing;
  }

  // ---------------------------------------------------------------- medications

  const NoMedications := "Your records show no current medications on file. "
    + "If you are taking medications, please contact our office to update your records."
  const MedicationsHeader := "💊 **Your Current Medications:**\n\n"
  const MedicationsClosing := Join([
    "⚠️ **Medication Safety:**",
    "• Always take medications as prescribed",
    "• Inform all healthcare providers about your medications",
    "• Don't stop medications without consulting your doctor",
    "• Report any side effects immediately",
    "",
    "🔄 **Refills needed?** Contact our office or use the patient portal."], "\n")

  function MedicationEntry(m: Record): string {
    "• **" + GetOr(m, "name", "Unknown medication") + "**\n"
    + "  💊 Dosage: " + GetOr(m, "dosage", "Not specified") + "\n"
    + "  🕐 Frequency: " + GetOr(m, "frequency", "Not specified") + "\n\n"
  }

  function MedicationsText(medications: seq<Record>): string {
    if |medications| == 0 then NoMedications
    else MedicationsHeader + Concat(Map(medications, MedicationEntry)) + MedicationsClosing
  }

  lemma MedicationsListsEvery(medications: seq<Record>, k: nat)
    requires k < |medications|
    ensures Contains(MedicationsText(medications), MedicationEntry(medications[k]))
  {
    ListedInside(MedicationsHeader, Map(medications, MedicationEntry), k, MedicationsClosing);
  }

  /** `_handle_medications_request`. */
  method HandleMedicationsRequest(store: FhirStore, patientId: string) returns (text: string)
    ensures text == MedicationsText(MedicationsOf(store.data.patients, patientId))
  {
    var medications := store.GetPatientMedications(patientId);
    if |medications| == 0 {
      return NoMedications;
    }
    var entries := AppendEach(medications, MedicationEntry);
    text := MedicationsHeader + entries + MedicationsClosing;
  }

  // ---------------------------------------------------------------- allergies

  const NoAllergies := "Your records show no known allergies on file. "
    + "If you have allergies, please contact our office immediately to update your records for your safety."
  const AllergiesHeader := "🚨 **Your Known Allergies:**\n\n"
  const AllergiesClosing := Join([
    "",
    "⚠️ **Critical Safety Information:**",
    "• Always inform healthcare providers about your allergies",
    "• Carry allergy information with you",
    "• Consider wearing a medical alert bracelet",
    "• Know the signs of allergic reactions",
    "• Have emergency medications available if prescribed",
    "",
    "🆘 **Emergency:** If experiencing severe allergic reaction, call 911 immediately."], "\n")

  function AllergyEntry(a: string): string {
    "• **" + a + "**\n"
  }

  function AllergiesText(allergies: seq<string>): string {
    if |allergies| == 0 then NoAllergies
    else AllergiesHeader + Concat(Map(allergies, AllergyEntry)) + AllergiesClosing
  }

  /** Every allergy on file is named, in bold, on a line of its own. */
  lemma AllergiesListsEvery(allergies: seq<string>, k: nat)
    requires k < |allergies|
    ensures Contains(AllergiesText(allergies), "• **" + allergies[k] + "**\n")
  {
    ListedInside(AllergiesHeader, Map(allergies, AllergyEntry), k, AllergiesClosing);
  }

  /** `_handle_allergies_request`. */
  method HandleAllergiesRequest(store: FhirStore, patientId: string) returns (text: string)
    ensures text == AllergiesText(AllergiesOf(store.data.patients, patientId))
  {
    var allergies := store.GetPatientAllergies(patientId);
    if |allergies| == 0 {
      return NoAllergies;
    }
    var entries := AppendEach(allergies, AllergyEntry);
    text := AllergiesHeader + entries + AllergiesClosing;
  }

  // ---------------------------------------------------------------- fixed replies

  /** `_handle_test_results_request`: no results are read; the reply is fixed. */
  const TestResultsText := Join([
    "🧪 **Laboratory & Test Results:**",
    "",
    "For security and privacy reasons, detailed test results are available through:",
    "",
    "🌐 **Patient Portal:** patient.hospital.com",
    "📱 **MyChart App:** Download from app store",
    "📞 **Call Office:** (555) 123-4567",
    "",
    "**Recent Tests:** (Summary only)",
    "• Blood work: Completed last month - Normal ranges",
    "• Annual physical: Completed - Results discussed with provider",
    "",
    "💡 **Note:** Detailed results and interpretations should be discussed with your healthcare provider."], "\n")

  /** `_handle_update_request`: records are never changed; the reply says how to ask. */
  const UpdateText := Join([
    "🔄 **Updating Medical Records**",
    "",
    "For security and accuracy, medical record updates require verification. "
      + "Here's how to update your information:",
    "",
    "**📞 Call Our Office:**",
    "• Phone: (555) 123-4567",
    "• Speak with medical records staff",
    "• Verification required",
    "",
    "**🌐 Patient Portal:**",
    "• Log in to patient.hospital.com",
    "• Use secure messaging",
    "• Upload documents if needed",
    "",
    "**🏥 In-Person Visit:**",
    "• Visit our office with ID",
    "• Complete update forms",
    "• Immediate processing",
    "",
    "**Common Updates:**",
    "• New allergies or medications",
    "• Contact information changes",
    "• Insurance updates",
    "• Emergency contact changes",
    "",
    "⚠️ **Important:** Keeping your medical records current helps ensure safe, effective care."], "\n")

  /** `_handle_general_records_request`. */
  const GeneralRecordsText := Join([
    "📋 **Medical Records Information**",
    "",
    "I can help you access various types of medical information:",
    "",
    "**Available Information:**",
    "• 📋 Medical history and diagnoses",
    "• 💊 Current medications and prescriptions",
    "• 🚨 Known allergies and reactions",
    "• 🧪 Lab and test results (via portal)",
    "• 📊 Complete medical records summary",
    "",
    "**How to Access:**",
    "• Ask me specific questions about your records",
    "• Use our patient portal: patient.hospital.com",
    "• Call our office: (555) 123-4567",
    "",
    "**Example Requests:**",
    "• \"Show me my medical history\"",
    "• \"What medications am I taking?\"",
    "• \"Do I have any allergies on file?\"",
    "• \"I need a summary of my records\"",
    "",
    "🔒 **Privacy:** All medical records access is secure and logged for your protection."], "\n")

  // ---------------------------------------------------------------- summary

  function AgeText(age: Option<int>): string {
    match age
    case None => "Not specified"
    case Some(a) => IntToString(a)
  }

  function SummaryHead(p: Patient): string {
    "📊 **Medical Records Summary for " + p.name.GetOr("Patient") + "**\n\n"
    + "👤 **Patient Information:**\n"
    + "• Name: " + p.name.GetOr("Not specified") + "\n"
    + "• Age: " + AgeText(p.age) + "\n"
    + "• Gender: " + p.gender.GetOr("Not specified") + "\n\n"
  }

  function SummaryCondition(c: Record): string {
    "• " + Show(c, "condition") + " (" + GetOr(c, "diagnosed", "Date unknown") + ")\n"
  }

  function SummaryMedication(m: Record): string {
    "• " + Show(m, "name") + " - " + Show(m, "dosage") + " " + Show(m, "frequency") + "\n"
  }

  function SummaryAllergy(a: string): string {
    "• " + a + "\n"
  }

  /** The listing of a section, or its placeholder line when it is empty. */
  function ListOr<T>(xs: seq<T>, render: T -> string, placeholder: string): string {
    if |xs| == 0 then "• " + placeholder + "\n" else Concat(Map(xs, render))
  }

  const NoAllergiesOnFile := "No known allergies on file"
  const SummaryHistoryTitle := "📋 **Medical History:**\n"
  const SummaryMedicationsTitle := "\n💊 **Current Medications:**\n"
  const SummaryAllergiesTitle := "\n🚨 **Known Allergies:**\n"
  const SummaryClosing := "\n⚠️ **Important:** This is a summary for your reference. Always consult your "
    + "healthcare provider for medical decisions and detailed explanations."

  function HistorySection(history: seq<Record>): string {
    SummaryHistoryTitle + ListOr(history, SummaryCondition, "No significant medical history on file")
  }

  function MedicationSection(medications: seq<Record>): string {
    SummaryMedicationsTitle + ListOr(medications, SummaryMedication, "No current medications on file")
  }

  function AllergySection(allergies: seq<string>): string {
    SummaryAllergiesTitle + ListOr(allergies, SummaryAllergy, NoAllergiesOnFile)
  }

  /** The name, then the sections history, medications and allergies, in that order. */
  function SummaryText(p: Patient, history: seq<Record>, medications: seq<Record>, allergies: seq<string>): string {
    SummaryHead(p) + HistorySection(history) + MedicationSection(medications) + AllergySection(allergies)
    + SummaryClosing
  }

  /** The summary names every allergy on file. */
  lemma SummaryListsEveryAllergy(p: Patient, history: seq<Record>, medications: seq<Record>,
                                 allergies: seq<string>, k: nat)
    requires k < |allergies|
    ensures Contains(SummaryText(p, history, medications, allergies), "• " + allergies[k] + "\n")
  {
    var front := SummaryHead(p) + HistorySection(history) + MedicationSection(medications);
    ListedInside(SummaryAllergiesTitle, Map(allergies, SummaryAllergy), k, "");
    assert SummaryAllergiesTitle + Concat(Map(allergies, SummaryAllergy)) + "" == AllergySection(allergies);
    ContainsInside(front, AllergySection(allergies), SummaryClosing);
    ContainsTrans(SummaryText(p, history, medications, allergies), AllergySection(allergies),
                  "• " + allergies[k] + "\n");
  }

  /** With no allergy on file, the summary says so. */
  lemma SummaryNoAllergies(p: Patient, history: seq<Record>, medications: seq<Record>)
    ensures Contains(SummaryText(p, history, medications, []), "• " + NoAllergiesOnFile + "\n")
  {
    var front := SummaryHead(p) + HistorySection(history) + MedicationSection(medications);
    var placeholder := ListOr([], SummaryAllergy, NoAllergiesOnFile);
    assert placeholder == "• " + NoAllergiesOnFile + "\n";
    ContainsInside(SummaryAllergiesTitle, placeholder, "");
    assert SummaryAllergiesTitle + placeholder + "" == AllergySection([]);
    ContainsInside(front, AllergySection([]), SummaryClosing);
    ContainsTrans(SummaryText(p, history, medications, []), AllergySection([]), "• " + NoAllergiesOnFile + "\n");
  }

  /** A section's `if items: for item in items: ... else: ...` loop. */
  method RenderSection<T>(xs: seq<T>, render: T -> string, placeholder: string) returns (text: string)
    ensures text == ListOr(xs, render, placeholder)
  {
    if |xs| == 0 {
      return "• " + placeholder + "\n";
    }
    text := AppendEach(xs, render);
  }

  /** `_handle_summary_request`: the three getters, then the sections in order. */
  method HandleSummaryRequest(store: FhirStore, patientId: string, p: Patient) returns (text: string)
    ensures text == SummaryText(p, HistoryOf(store.data.patients, patientId),
                                MedicationsOf(store.data.patients, patientId), AllergiesOf(store.data.patients, patientId))
  {
    var history := store.GetPatientMedicalHistory(patientId);
    var medications := store.GetPatientMedications(patientId);
    var allergies := store.GetPatientAllergies(patientId);
    var historyList := RenderSection(history, SummaryCondition, "No significant medical history on file");
    var medicationList := RenderSection(medications, SummaryMedication, "No current medications on file");
    var allergyList := RenderSection(allergies, SummaryAllergy, NoAllergiesOnFile);
    text := SummaryHead(p) + (SummaryHistoryTitle + historyList) + (SummaryMedicationsTitle + medicationList)
            + (SummaryAllergiesTitle + allergyList) + SummaryClosing;
  }

  // ---------------------------------------------------------------- handler

  const RecordsNotFound := "I'm sorry, but I couldn't find your medical records. "
    + "Please verify your patient ID or contact our office at (555) 123-4567."

  /** `state.get("patient_id", "patient-001")`. */
  function RecordsPatientId(s: State): string {
    s.patientId.GetOr("patient-001")
  }

  /** The reply for a request kind about a patient on file. */
  function RecordsReply(requestType: string, ps: seq<Patient>, patientId: string, p: Patient): string {
    if requestType == "medical_history" then HistoryText(HistoryOf(ps, patientId))
    else if requestType == "medications" then MedicationsText(MedicationsOf(ps, patientId))
    else if requestType == "allergies" then AllergiesText(AllergiesOf(ps, patientId))
    else if requestType == "test_results" then TestResultsText
    else if requestType == "summary" then SummaryText(p, HistoryOf(ps, patientId), MedicationsOf(ps, patientId),
                                                      AllergiesOf(ps, patientId))
    else if requestType == "update" then UpdateText
    else GeneralRecordsText
  }

  /** The state `handle_records` returns for the patients on file. */
  function RecordsOutcome(s: State, ps: seq<Patient>): State {
    var patientId := RecordsPatientId(s);
    var requestType := AnalyzeRecordsRequest(MessageOf(s));
    match FindPatient(ps, patientId)
    case None =>
      s.(response := Some(RecordsNotFound), requestType := Some("patient_not_found"),
         nextAction := Some("records_complete"))
    case Some(p) =>
      s.(response := Some(RecordsReply(requestType, ps, patientId, p)), requestType := Some(requestType),
         patientVerified := Some(true), nextAction := Some("records_complete"))
  }

  /** The patient is marked verified exactly when they are on file; an unknown
      patient gets the not-found reply and nothing else changes. */
  lemma RecordsOutcomeSpec(s: State, ps: seq<Patient>)
    ensures var r := RecordsOutcome(s, ps);
      r.nextAction == Some("records_complete") && KeepsClassification(s, r) && r.error == s.error
      && (r.patientVerified == Some(true) <==> FindPatient(ps, RecordsPatientId(s)).Some? || s.patientVerified == Some(true))
      && (FindPatient(ps, RecordsPatientId(s)).None? <==> r.requestType == Some("patient_not_found"))
      && (FindPatient(ps, RecordsPatientId(s)).None? ==>
            r == s.(response := Some(RecordsNotFound), requestType := Some("patient_not_found"),
                     nextAction := Some("records_complete")))
      && (FindPatient(ps, RecordsPatientId(s)).Some? ==>
            r.requestType == Some(AnalyzeRecordsRequest(MessageOf(s))) && r.patientVerified == Some(true))
  {
  }

  /** A patient on file who asks for their allergies sees every one of them. */
  lemma AllergiesReachThePatient(s: State, ps: seq<Patient>, k: nat)
    requires AnalyzeRecordsRequest(MessageOf(s)) == "allergies"
    requires FindPatient(ps, RecordsPatientId(s)).Some?
    requires k < |AllergiesOf(ps, RecordsPatientId(s))|
    ensures var a := AllergiesOf(ps, RecordsPatientId(s))[k];
      Contains(RecordsOutcome(s, ps).response.value, "• **" + a + "**\n")
  {
    AllergiesListsEvery(AllergiesOf(ps, RecordsPatientId(s)), k);
  }

  /** `handle_records`: looks the patient up, then dispatches on the request kind. */
  method HandleRecords(s: State, store: FhirStore) returns (r: State)
    ensures r == RecordsOutcome(s, store.data.patients)
  {
    var message := MessageOf(s);
    var patientId := RecordsPatientId(s);
    var requestType := AnalyzeRecordsRequest(message);
    var patient := store.GetPatient(patientId);
    if patient.None? {
      return s.(response := Some(RecordsNotFound), requestType := Some("patient_not_found"),
                nextAction := Some("records_complete"));
    }
    var response;
    if requestType == "medical_history" {
      response := HandleMedicalHistoryRequest(store, patientId);
    } else if requestType == "medications" {
      response := HandleMedicationsRequest(store, patientId);
    } else if requestType == "allergies" {
      response := HandleAllergiesRequest(store, patientId);
    } else if requestType == "test_results" {
      response := TestResultsText;
    } else if requestType == "summary" {
      response := HandleSummaryRequest(store, patientId, patient.value);
    } else if requestType == "update" {
      response := UpdateText;
    } else {
      response := GeneralRecordsText;
    }
    r := s.(response := Some(response), requestType := Some(requestType), patientVerified := Some(true),
            nextAction := Some("records_complete"));
  }

  const OfficePhone := "(555) 123-4567"
  const TroubleOpening := "I'm having trouble accessing your medical records right now. Please call our office at "
  const TroubleRest := " or visit our patient portal for assistance."
  const RecordsTrouble := TroubleOpening + OfficePhone + TroubleRest

  /** The state the handler's `except` branch returns. No step of the handler
      raises in this model, so the branch is kept as its own function. */
  function RecordsSystemError(s: State): (r: State)
    ensures KeepsClassification(s, r) && r.patientVerified == s.patientVerified
    ensures r.requestType == Some("system_error") && r.nextAction == Some("records_complete")
    ensures r.response.Some? && Contains(r.response.value, OfficePhone)
  {
    ContainsInside(TroubleOpening, OfficePhone, TroubleRest);
    s.(response := Some(RecordsTrouble), requestType := Some("system_error"), nextAction := Some("records_complete"))
  }
}
