/** The emergency agent of `agents/emergency_agent.py`: the emergency type read
    off the message, the protocol table, the composed reply with its urgency
    header and call-911 line, the alert sent through the alerting system, and
    the fallback reply. The language model's answer is a parameter. */
module EmergencyAgent {
  import opened Common
  import opened Strings
  import opened Seqs
  import opened KeywordRules
  import opened AgentState
  import opened FhirUtils
  import opened Alerting

  // ---------------------------------------------------------------- emergency type

  /** The branches of `_identify_emergency_type`, in the order they are tried. */
  const EmergencyTypeRules: seq<Rule> := [
    Rule(["chest pain", "heart attack", "heart"], "chest_pain"),
    Rule(["can't breathe", "shortness of breath", "breathing", "breathe"], "breathing_difficulty"),
    Rule(["bleeding", "blood", "cut", "wound"], "severe_bleeding"),
    Rule(["unconscious", "fainted", "passed out"], "unconscious"),
    Rule(["allergic", "allergy", "swelling", "hives"], "allergic_reaction")]

  function IdentifyEmergencyType(message: string): string {
    Pick(Lower(message), EmergencyTypeRules, "general_emergency")
  }

  /** The type is one of the five with a protocol, or `general_emergency`
      exactly when none of the words occurs. */
  lemma EmergencyTypeRange(message: string)
    ensures var t := IdentifyEmergencyType(message);
      t in Protocols || t == "general_emergency"
    ensures IdentifyEmergencyType(message) == "general_emergency" <==>
      forall j :: 0 <= j < |EmergencyTypeRules| ==> !AnyIn(Lower(message), EmergencyTypeRules[j].keywords)
  {
    PickDefault(Lower(message), EmergencyTypeRules, "general_emergency");
  }

  /** "heart" on its own is enough for chest pain, whatever else the message says. */
  lemma HeartMeansChestPain(message: string)
    requires Contains(Lower(message), "heart")
    ensures IdentifyEmergencyType(message) == "chest_pain"
  {
    PickKeyword(Lower(message), EmergencyTypeRules, "general_emergency", 2);
  }

  /** A breathing word gives breathing difficulty unless a chest word occurs too. */
  lemma BreathingUnlessChest(message: string, k: nat)
    requires k < |EmergencyTypeRules[1].keywords| && Contains(Lower(message), EmergencyTypeRules[1].keywords[k])
    requires !AnyIn(Lower(message), EmergencyTypeRules[0].keywords)
    ensures IdentifyEmergencyType(message) == "breathing_difficulty"
  {
    AnyInAt(Lower(message), EmergencyTypeRules[1].keywords, k);
    PickFirst(Lower(message), EmergencyTypeRules, "general_emergency", 1);
  }

  // ---------------------------------------------------------------- protocols

  datatype Protocol = Protocol(advice: string, urgency: int, call911: bool)

  /** `self.emergency_protocols`. */
  const Protocols: map<string, Protocol> := map[
    "chest_pain" := Protocol("Sit down, stay calm, chew aspirin if not allergic, call 911 immediately", 10, true),
    "breathing_difficulty" := Protocol("Sit upright, try to stay calm, use rescue inhaler if available, call 911", 9, true),
    "severe_bleeding" := Protocol("Apply direct pressure to wound, elevate if possible, call 911", 9, true),
    "unconscious" := Protocol("Check breathing, place in recovery position if breathing, call 911 immediately", 10, true),
    "allergic_reaction" := Protocol("Use EpiPen if available, call 911, avoid allergen", 8, true)]

  /** `self.emergency_protocols.get(emergency_type, {})`, `None` standing for `{}`:
      every protocol calls for 911, carries advice and an urgency from 8 to 10,
      and a general emergency has none. */
  function ProtocolFor(emergencyType: string): (p: Option<Protocol>)
    ensures p.Some? ==> p.value.call911 && 8 <= p.value.urgency <= 10 && p.value.advice != ""
    ensures p.None? <==> emergencyType !in Protocols
    ensures emergencyType == "general_emergency" ==> p.None?
  {
    if emergencyType in Protocols then Some(Protocols[emergencyType]) else None
  }

  // ---------------------------------------------------------------- composed reply

  const ImmediateHeader := "\U{1F6A8} **IMMEDIATE EMERGENCY** \U{1F6A8}"
  const UrgentHeader := "⚠️ **URGENT MEDICAL SITUATION** ⚠️"
  const AttentionHeader := "\U{1F3E5} **Medical Attention Needed** \U{1F3E5}"
  const Call911Line := "\n\U{1F6A8} **CALL 911 IMMEDIATELY** \U{1F6A8}"
  const ContactDirectlyLine := "\n\U{1F4DE} Please contact emergency services directly at 911"
  const ContactLines: seq<string> := [
    "\n**Emergency Contacts:**",
    "• Emergency Services: 911",
    "• Poison Control: 1-800-222-1222",
    "• Crisis Text Line: Text HOME to 741741"]

  /** The urgency indicator: immediate from 9, urgent from 7, else attention needed. */
  function UrgencyHeader(urgency: int): (h: string)
    ensures h == ImmediateHeader <==> urgency >= 9
    ensures h == UrgentHeader <==> 7 <= urgency < 9
    ensures h == AttentionHeader <==> urgency < 7
  {
    if urgency >= 9 then ImmediateHeader
    else if urgency >= 7 then UrgentHeader
    else AttentionHeader
  }

  /** The line reporting the alert: its id (`N/A` when missing) when it was
      sent, else the advice to call 911 directly. */
  function AlertLine(alertSent: bool, alertId: Option<string>): string {
    if alertSent then "\n✅ Emergency services have been notified (Alert ID: " + alertId.GetOr("N/A") + ")"
    else ContactDirectlyLine
  }

  function AdviceLines(protocol: Option<Protocol>): seq<string> {
    if protocol.Some? && protocol.value.advice != "" then ["\n**Immediate Actions:**\n" + protocol.value.advice] else []
  }

  /** Whether the call-911 line is added. */
  predicate Calls911(protocol: Option<Protocol>, urgency: int) {
    urgency >= 8 || (protocol.Some? && protocol.value.call911)
  }

  /** `response_parts` of `_build_emergency_response`: the header, the model's
      text, the protocol advice when there is some, the call-911 line exactly
      when the urgency is at least 8 or the protocol calls for 911, the alert
      line, and the three emergency contacts last. */
  function EmergencyResponseParts(aiResponse: string, protocol: Option<Protocol>, urgency: int,
                                  alertSent: bool, alertId: Option<string>): (r: seq<string>)
    ensures |r| == 7 + |AdviceLines(protocol)| + (if Calls911(protocol, urgency) then 1 else 0)
    ensures r[0] == UrgencyHeader(urgency) && r[1] == aiResponse
    ensures protocol.Some? && protocol.value.advice != "" ==>
              r[2] == "\n**Immediate Actions:**\n" + protocol.value.advice
    ensures Calls911(protocol, urgency) ==> r[|r| - 6] == Call911Line
    ensures r[|r| - 5] == AlertLine(alertSent, alertId)
    ensures r[|r| - 4..] == ContactLines
  {
    [UrgencyHeader(urgency), aiResponse] + AdviceLines(protocol)
    + (if Calls911(protocol, urgency) then [Call911Line] else [])
    + [AlertLine(alertSent, alertId)] + ContactLines
  }

  function BuildEmergencyResponse(aiResponse: string, protocol: Option<Protocol>, urgency: int,
                                  alertSent: bool, alertId: Option<string>): string {
    Join(EmergencyResponseParts(aiResponse, protocol, urgency, alertSent, alertId), "\n")
  }

  /** Every recognised emergency gets the call-911 line, whatever the urgency. */
  lemma RecognisedEmergencyCalls911(message: string, urgency: int)
    requires IdentifyEmergencyType(message) != "general_emergency"
    ensures Calls911(ProtocolFor(IdentifyEmergencyType(message)), urgency)
  {
    EmergencyTypeRange(message);
  }

  const SeriousOpening :=
    "This appears to be a serious medical emergency. Please take the following immediate actions:\n\n1. "
  const SeriousRest :=
    " or go to the nearest emergency room\n"
    + "2. Stay calm and follow dispatcher instructions\n"
    + "3. If possible, have someone stay with you\n"
    + "4. Do not drive yourself if experiencing severe symptoms\n\n"
    + "Emergency services have been notified. This is not a substitute for professional medical care."
  const UrgentCareOpening := "This may require urgent medical attention. Please consider:\n\n1. "
  const UrgentCareRest :=
    "\n2. Going to urgent care or emergency room\n"
    + "3. Calling 911 if symptoms worsen\n"
    + "4. Having someone available to assist you\n\n"
    + "Please seek professional medical evaluation as soon as possible."

  /** The reply's text when the model fails: call 911 from urgency 8, else urgent care. */
  function DefaultEmergencyResponse(urgency: int): string {
    if urgency >= 8 then SeriousOpening + "**Call 911 immediately**" + SeriousRest
    else UrgentCareOpening + "Calling your doctor immediately" + UrgentCareRest
  }

  /** From urgency 8 the default text tells the patient to call 911 immediately,
      below it to call their doctor. */
  lemma DefaultResponseAdvice(urgency: int)
    ensures urgency >= 8 ==> Contains(DefaultEmergencyResponse(urgency), "**Call 911 immediately**")
    ensures urgency < 8 ==> Contains(DefaultEmergencyResponse(urgency), "Calling your doctor immediately")
  {
    if urgency >= 8 {
      ContainsInside(SeriousOpening, "**Call 911 immediately**", SeriousRest);
    } else {
      ContainsInside(UrgentCareOpening, "Calling your doctor immediately", UrgentCareRest);
    }
  }

  // ---------------------------------------------------------------- patient summary

  /** `[med.get('name', 'Unknown') for med in medications[:3]]`. */
  function MedicationNames(medications: seq<Record>): (r: seq<string>)
    ensures |r| == if |medications| < 3 then |medications| else 3
    ensures forall k :: 0 <= k < |r| ==> r[k] == GetOr(medications[k], "name", "Unknown")
  {
    Map(Take(medications, 3), (m: Record) => GetOr(m, "name", "Unknown"))
  }

  /** `info_parts` of `_format_patient_info`: name, age and gender, then the
      allergies, the first three medications and the emergency contact, each
      only when present. */
  function PatientInfoParts(p: Patient): (r: seq<string>)
    ensures |r| == 3 + (if |p.allergies| > 0 then 1 else 0) + (if |p.medications| > 0 then 1 else 0)
                     + (if |p.emergencyContact| > 0 then 1 else 0)
    ensures r[0] == "Name: " + p.name.GetOr("Unknown")
    ensures r[1] == "Age: " + (if p.age.Some? then IntToString(p.age.value) else "Unknown")
    ensures r[2] == "Gender: " + p.gender.GetOr("Unknown")
    ensures |p.allergies| > 0 ==> r[3] == "Allergies: " + Join(p.allergies, ", ")
    ensures |p.medications| > 0 ==>
      r[if |p.allergies| > 0 then 4 else 3] == "Current Medications: " + Join(MedicationNames(p.medications), ", ")
    ensures |p.emergencyContact| > 0 ==>
      r[|r| - 1] == "Emergency Contact: " + Show(p.emergencyContact, "name") + " (" + Show(p.emergencyContact, "phone") + ")"
  {
    ["Name: " + p.name.GetOr("Unknown"),
     "Age: " + (if p.age.Some? then IntToString(p.age.value) else "Unknown"),
     "Gender: " + p.gender.GetOr("Unknown")]
    + (if |p.allergies| > 0 then ["Allergies: " + Join(p.allergies, ", ")] else [])
    + (if |p.medications| > 0 then ["Current Medications: " + Join(MedicationNames(p.medications), ", ")] else [])
    + (if |p.emergencyContact| > 0
       then ["Emergency Contact: " + Show(p.emergencyContact, "name") + " (" + Show(p.emergencyContact, "phone") + ")"]
       else [])
  }

  const NoPatientInfo := "Patient information not available"

  /** `_format_patient_info` on the lookup's result. */
  function FormatPatientInfo(patient: Option<Patient>): string {
    match patient
    case None => NoPatientInfo
    case Some(p) => Join(PatientInfoParts(p), "\n")
  }

  // ---------------------------------------------------------------- handler

  /** `state.get("urgency", 5)`. */
  function UrgencyOf(s: State): int {
    s.urgency.GetOr(5)
  }

  /** `state.get("patient_id", "unknown")`. */
  function PatientIdOf(s: State): string {
    s.patientId.GetOr("unknown")
  }

  /** The patient `handle_emergency` looks up: none for the id `unknown`. */
  function PatientFor(data: FhirData, s: State): Option<Patient> {
    if PatientIdOf(s) == "unknown" then None else FindPatient(data.patients, PatientIdOf(s))
  }

  /** The patient text the alert carries. */
  function AlertPatientInfo(s: State, patient: Option<Patient>): string {
    "Patient ID: " + PatientIdOf(s) + "\n" + FormatPatientInfo(patient)
  }

  /** The state `handle_emergency` returns, given the patient found, the model's
      reply and the id of the alert that was sent. */
  function EmergencyOutcome(s: State, patient: Option<Patient>, reply: LlmReply, alertId: string): State {
    var urgency := UrgencyOf(s);
    var emergencyType := IdentifyEmergencyType(MessageOf(s));
    var aiResponse := match reply
      case Reply(content) => content
      case Failure(_) => DefaultEmergencyResponse(urgency);
    var response := BuildEmergencyResponse(aiResponse, ProtocolFor(emergencyType), urgency, true, Some(alertId));
    s.(response := Some(response), emergencyType := Some(emergencyType), alertSent := Some(true),
       alertId := Some(alertId), nextAction := Some("emergency_response_complete"))
  }

  /** The handler always reports the alert as sent, keeps the classification,
      and its reply opens with the urgency header and the model's text (or the
      default text when the model failed), reports the alert id and ends with
      the emergency contacts. */
  lemma EmergencyOutcomeSpec(s: State, patient: Option<Patient>, reply: LlmReply, alertId: string)
    ensures var r := EmergencyOutcome(s, patient, reply, alertId);
      var protocol := ProtocolFor(IdentifyEmergencyType(MessageOf(s)));
      var parts := EmergencyResponseParts(
        if reply.Reply? then reply.content else DefaultEmergencyResponse(UrgencyOf(s)),
        protocol, UrgencyOf(s), true, Some(alertId));
      r.alertSent == Some(true) && r.alertId == Some(alertId)
      && r.nextAction == Some("emergency_response_complete")
      && KeepsClassification(s, r) && r.error == s.error
      && r.response == Some(Join(parts, "\n"))
      && parts[0] == UrgencyHeader(UrgencyOf(s))
      && parts[1] == (if reply.Reply? then reply.content else DefaultEmergencyResponse(UrgencyOf(s)))
      && parts[|parts| - 5] == AlertLine(true, Some(alertId))
      && parts[|parts| - 4..] == ContactLines
  {
  }

  /** `handle_emergency`: looks the patient up unless the id is `unknown`, sends
      the alert through `alerts`, and composes the reply. */
  method HandleEmergency(s: State, store: FhirStore, alerts: AlertingSystem, reply: LlmReply,
                         timestamp: string, epochSeconds: int, smtpOk: bool)
    returns (r: State)
    modifies alerts
    ensures r == EmergencyOutcome(s, PatientFor(store.data, s), reply, EmergencyAlertId(epochSeconds))
    ensures alerts.history == Some(Retained(old(alerts.history).GetOr([]),
      AlertData(timestamp, AlertPatientInfo(s, PatientFor(store.data, s)), MessageOf(s), UrgencyOf(s),
                EmergencyAlertId(epochSeconds))))
    ensures alerts.smtpAttempts == if old(alerts.MailConfigured())
      then old(alerts.smtpAttempts) + [EmergencyMail(alerts.settings, AlertPatientInfo(s, PatientFor(store.data, s)),
                                                      MessageOf(s), UrgencyOf(s), epochSeconds, timestamp)]
      else old(alerts.smtpAttempts)
    ensures alerts.logged == if old(alerts.MailConfigured()) && smtpOk then old(alerts.logged)
      else old(alerts.logged) + [EmergencyLog(AlertPatientInfo(s, PatientFor(store.data, s)), MessageOf(s),
                                              UrgencyOf(s), epochSeconds, timestamp)]
    ensures alerts.settings == old(alerts.settings)
  {
    var patient := LookUpPatient(s, store);
    var alert := alerts.SendEmergencyAlert(AlertPatientInfo(s, patient), MessageOf(s), UrgencyOf(s),
                                           timestamp, epochSeconds, smtpOk);
    r := EmergencyOutcome(s, patient, reply, alert.alertId);
  }

  /** The lookup of `handle_emergency`: the store is not asked for the id `unknown`. */
  method LookUpPatient(s: State, store: FhirStore) returns (patient: Option<Patient>)
    ensures patient == PatientFor(store.data, s)
  {
    patient := None;
    var patientId := PatientIdOf(s);
    if patientId != "unknown" {
      patient := store.GetPatient(patientId);
    }
  }

  // ---------------------------------------------------------------- fallback

  const FallbackOpening :=
    "\U{1F6A8} EMERGENCY PROTOCOL ACTIVATED \U{1F6A8}\n\n"
    + "I understand this is an urgent situation. Due to a system issue, I cannot provide detailed guidance right now.\n\n"
    + "**IMMEDIATE ACTIONS:**\n"
    + "• Call 911 immediately: **911**\n"
    + "• Go to the nearest emergency room\n"
    + "• Contact your doctor if possible\n\n"
    + "**This is an emergency situation requiring immediate professional medical attention.**\n\n"

  /** The alert id the fallback reply names, from the clock's whole seconds. */
  function FallbackAlertLine(epochSeconds: int): string {
    "Alert ID: FALLBACK_" + IntToString(epochSeconds)
  }

  /** `_fallback_emergency_response`: no alert was sent, the type is
      `system_fallback`, every other key is kept, and the text names a
      `FALLBACK_` alert id. */
  function FallbackEmergencyResponse(s: State, epochSeconds: int): (r: State)
    ensures r.alertSent == Some(false) && r.emergencyType == Some("system_fallback")
    ensures r.nextAction == Some("emergency_response_complete")
    ensures KeepsClassification(s, r) && r.alertId == s.alertId && r.error == s.error
    ensures r.response.Some? && Contains(r.response.value, FallbackAlertLine(epochSeconds))
  {
    ContainsInside(FallbackOpening, FallbackAlertLine(epochSeconds), "\n");
    s.(response := Some(FallbackOpening + FallbackAlertLine(epochSeconds) + "\n"),
       emergencyType := Some("system_fallback"), alertSent := Some(false),
       nextAction := Some("emergency_response_complete"))
  }
}
