# Medical AI assistant — a verified model of its core

The healthcare assistant answers patient messages through a small workflow.
An **intent classifier** labels each message as `emergency`, `appointment`,
`medical_records` or `routine`. A **router** then sends the message to one
specialist agent:

- the **emergency agent** composes an urgent answer and raises an alert;
- the **scheduler agent** lists, books, reschedules or cancels appointments;
- the **records agent** reads a patient's history, medications and allergies;
- the **routine agent** answers office questions from canned topics and the
  FAQ table.

After the specialist, a **response builder** appends a closing chosen by the
intent. A **memory updater** then records the exchange in a per-patient
conversation memory. The agents share an in-memory **FHIR-style record store**
of patients, appointments, doctors and FAQs. They also share an **alerting
system** that keeps a bounded alert history, and a **configuration** with
per-environment overrides, validation and a redacted export.

The project models each of these in Dafny:

- Code that builds values is modelled as functions and lemmas.
- Code that changes state is modelled as classes and methods:
  - the store tables (`FhirUtils.FhirStore`);
  - the alert history (`Alerting.AlertingSystem`);
  - the configuration (`Config.MedicalAIConfig`);
  - the per-patient memories (`MedicalGraph.MedicalAIAgent`);
  - the classifier singleton (`IntentClassifier.ClassifierSlot`).
- Loops that accumulate text or filter lists are modelled as methods. Their
  loop invariants tie them to a specification function.

Some inputs are not modelled directly and become parameters instead:

- **The language model.** Each call is an `LlmReply`. The call either returns
  an arbitrary text (`Reply`) or fails (`Failure`).
- **The clock.** Time enters as `timestamp`, `epochSeconds` and `currentYear`.
- **The environment.** Variables are a map `Env`.
- **The file system.** A file's existence is a function `fileExists`. A
  stored history is an `Option<seq<…>>`.
- **Sending mail.** Whether SMTP succeeds is a flag `smtpOk`.
- **Regular expressions.** A regex search is a `Search` function.
- **The scheduler's doctor and slot lookups.** They are `DoctorLookup` and
  `SlotLookup`, because the helpers the repository wires in do not work (see
  below).

Modules, one per file:

| module | file | models |
|---|---|---|
| `Common` | common.dfy | `Option`, `Attempt` (returned or raised) |
| `Strings` | strings.dfy | `lower`, `title`, `strip`, `split`, `join`, `str(int)`, `int(str)`, substring tests |
| `Seqs` | seqs.dfy | comprehensions (`Filter`, `Map`), slices, a fold that can stop early |
| `KeywordRules` | rules.dfy | first-match-wins keyword rule lists, shared by all agents |
| `AgentState` | agent_state.dfy | the state dictionary passed between nodes, and `LlmReply` |
| `FhirUtils` | fhir_utils.dfy | `utils/fhir_utils.py` |
| `IntentClassifier` | intent_classifier.dfy | `agents/intent_classifier.py` |
| `Alerting` | alerting.dfy | `utils/alerting.py` |
| `EmergencyAgent` | emergency_agent.dfy | `agents/emergency_agent.py` |
| `SchedulerAgent` | scheduler_agent.dfy | `agents/scheduler_agent.py` |
| `RecordsAgent` | records_agent.dfy | `agents/medical_records_agent.py` |
| `RoutineAgent` | routine_agent.dfy | `agents/routine_query_agent.py` |
| `Config` | config.dfy | `config.py` |
| `MedicalGraph` | medical_graph.dfy | `medical_graph/medical_graph.py` and the parts of `memory/memory_manager.py` it uses |

Some behaviour follows the code rather than the design text around it:

- **The scheduler's module-level helpers do not match their calls.**
  - `get_available_doctors()` calls a `get_doctors` that the store lacks.
  - `get_doctor_availability` is called with one argument but needs two.
  - As wired, booking therefore always ends in the trouble text. A general
    request, and a reschedule request for a patient with appointments, end
    in `handle_schedule`'s error branch.
  - This is proved in `WiredBookingFails` and `WiredScheduleErrors`.
  - `StoreBooking` and `StoreScheduleNeverRaises` show what the same code does
    with the store's own lookups.
- **"reschedule" is classified as "book".** `schedule` is tested first and
  occurs inside `reschedule`.
- **`search_faqs("")` matches every FAQ.** So the routine agent's FAQ count
  for an empty question is `min(3, |faqs|)`.
- **The records agent never calls its language model.**

## Model

| member | source | states |
|---|---|---|
| FhirUtils.FirstPatientIndex | utils/fhir_utils.py:45-50 | the index found holds the first patient with the id; no index means no patient has it |
| FhirUtils.FindPatientSpec | utils/fhir_utils.py:45-50 | `get_patient` is None exactly when no patient has the id, else it is the first patient with it |
| FhirUtils.UnknownPatientHasNoEntries | utils/fhir_utils.py:73-92 | history, medications and allergies are `[]` for an unknown patient |
| FhirUtils.FhirStore.constructor | utils/fhir_utils.py:16-33 | the store holds the loaded tables |
| FhirUtils.FhirStore.PatientIndex | utils/fhir_utils.py:47-50 | the lookup loop finds the first patient with the id |
| FhirUtils.FhirStore.GetPatient | utils/fhir_utils.py:45-50 | returns the first patient with the id, or None |
| FhirUtils.FhirStore.SearchPatients | utils/fhir_utils.py:52-62 | returns, in table order, exactly the patients whose lower-cased name or id contains the lower-cased query |
| FhirUtils.FhirStore.SearchFaqs | utils/fhir_utils.py:174-184 | returns, in table order, exactly the FAQs whose lower-cased question or answer contains the lower-cased query |
| FhirUtils.EmptyQueryMatchesEverything | utils/fhir_utils.py:174-184 | the empty query returns the whole FAQ table |
| FhirUtils.InsertByDate | utils/fhir_utils.py:71 | inserting one appointment adds exactly that appointment (multiset) |
| FhirUtils.InsertByDateSorted | utils/fhir_utils.py:71 | insertion keeps the list sorted by date |
| FhirUtils.SortByDateSorted | utils/fhir_utils.py:71 | the sort yields a date-ordered permutation of its input |
| FhirUtils.InsertByDateStable | utils/fhir_utils.py:71 | insertion keeps the relative order of appointments with the same date |
| FhirUtils.SortByDateStable | utils/fhir_utils.py:71 | the sort is stable: same-date appointments keep their order |
| FhirUtils.PatientAppointmentsSpec | utils/fhir_utils.py:64-71 | the patient's appointments are sorted by date, are exactly those with the patient's id, and keep table order within a date |
| FhirUtils.FhirStore.GetPatientAppointments | utils/fhir_utils.py:64-71 | the filtering loop and sort yield the patient's appointments as specified |
| FhirUtils.FhirStore.GetPatientMedicalHistory | utils/fhir_utils.py:73-78 | the patient's history, `[]` when unknown |
| FhirUtils.FhirStore.GetPatientMedications | utils/fhir_utils.py:80-85 | the patient's medications, `[]` when unknown |
| FhirUtils.FhirStore.GetPatientAllergies | utils/fhir_utils.py:87-92 | the patient's allergies, `[]` when unknown |
| FhirUtils.AppointmentIdReadsBack | utils/fhir_utils.py:97 | an id is `appt-` and at least three digits that read back as the number |
| FhirUtils.AppointmentIdInjective | utils/fhir_utils.py:97 | different counts give different ids |
| FhirUtils.NewAppointment | utils/fhir_utils.py:96-100 | the stored record has the new id, status `scheduled` unless one was given, and every other given field |
| FhirUtils.FhirStore.AddAppointment | utils/fhir_utils.py:94-107 | appends exactly one record, returns its id `appt-(n+1)`, and leaves earlier appointments and other tables unchanged |
| FhirUtils.FirstAppointmentIndex | utils/fhir_utils.py:111-112 | the index found holds the first appointment with the id; none means no appointment has it |
| FhirUtils.FhirStore.UpdateAppointment | utils/fhir_utils.py:109-119 | merges the updates into the first appointment with the id only and returns true; returns false and changes nothing when none has it |
| FhirUtils.FhirStore.CancelAppointment | utils/fhir_utils.py:121-123 | the update that sets only `status` to `cancelled` |
| FhirUtils.AvailableDoctorsSpec | utils/fhir_utils.py:125-132 | a missing or empty specialty gives all doctors, otherwise exactly those whose specialty contains it, ignoring case |
| FhirUtils.DoctorSlotsSpec | utils/fhir_utils.py:134-140 | the first doctor answering to the id or name gives its slots, or the six default slots when it lists none |
| FhirUtils.UnknownDoctorHasNoSlots | utils/fhir_utils.py:134-140 | no doctor answering gives `[]` |
| FhirUtils.FhirStore.GetDoctorAvailability | utils/fhir_utils.py:134-140 | the search loop returns the slots of the first doctor answering to the id |
| FhirUtils.AddEntry | utils/fhir_utils.py:148-164 | the entry goes to exactly one list by type (history, medications, allergen only into allergies, or additional records), stamped with the time; identity fields unchanged |
| FhirUtils.FhirStore.AddMedicalRecordEntry | utils/fhir_utils.py:142-168 | false and no change for an unknown patient; otherwise true and only the first matching patient gains the entry |
| FhirUtils.BirthDate | utils/fhir_utils.py:223-230 | a birth date exists exactly for a present, non-zero age |
| FhirUtils.BirthDateReadsBack | utils/fhir_utils.py:223-230 | the date is `<year-age>-01-01`, the year reading back as `currentYear - age` |
| FhirUtils.ToFhirPatientSpec | utils/fhir_utils.py:190-221 | a `Patient` resource with the id, gender and official name; a phone entry precedes an email entry, each only when present |
| IntentClassifier.CalculateUrgency | agents/intent_classifier.py:129-139 | urgency is 10 for a high keyword, else 8 for a medium one, else 6 |
| IntentClassifier.FallbackIntent | agents/intent_classifier.py:166-192 | the fallback always picks a routable intent |
| IntentClassifier.FallbackClassificationSpec | agents/intent_classifier.py:166-192 | priority emergency > appointment > medical_records > routine, confidence 6, urgency 7 exactly for emergency else 0, other keys kept |
| IntentClassifier.ParseStopsAtBadNumber | agents/intent_classifier.py:150-162 | a non-integer CONFIDENCE or URGENCY stops the parse and keeps the fields already set |
| IntentClassifier.UnknownLineIgnored | agents/intent_classifier.py:152-160 | a line without a known prefix changes nothing |
| IntentClassifier.LaterIntentWins | agents/intent_classifier.py:152-154 | a later INTENT line overrides earlier ones, trimmed and lower-cased |
| IntentClassifier.ParseFormatRoundTrip | agents/intent_classifier.py:141-164 | parsing an answer written in the four-line format the prompt requests (lines 67-70) gives back the classification |
| IntentClassifier.ParseFourLines | agents/intent_classifier.py:141-164 | the four lines in order set the four fields from the default |
| IntentClassifier.FormatSplitsIntoLines | agents/intent_classifier.py:151 | the answer splits at newlines into its four lines |
| IntentClassifier.FormatIsTrimmed | agents/intent_classifier.py:151 | stripping the answer leaves it unchanged |
| IntentClassifier.ParseClassificationResponse | agents/intent_classifier.py:141-164 | the line loop computes the fold of the line rules with its early stop |
| IntentClassifier.ClassifyIntent | agents/intent_classifier.py:74-127 | the method follows the empty, shortcut, model and fallback paths of the classification |
| IntentClassifier.EmptyMessageIsRoutine | agents/intent_classifier.py:79-86 | an empty message is routine/10/0 whatever the model says, other keys kept |
| IntentClassifier.EmergencyShortcut | agents/intent_classifier.py:88-108 | an emergency keyword in any case gives emergency with confidence 9 and urgency in {6, 8, 10}, independent of the model |
| IntentClassifier.FailureGivesKnownIntent | agents/intent_classifier.py:124-127 | when the model fails the intent is still one of the four routable ones |
| IntentClassifier.ClassifierSlot.constructor | agents/intent_classifier.py:195 | the singleton starts unset |
| IntentClassifier.ClassifierSlot.GetIntentClassifier | agents/intent_classifier.py:197-202 | created on the first call with a key and kept; without a key it reports the missing-key error |
| IntentClassifier.ClassifierSlot.ClassifyWithSingleton | agents/intent_classifier.py:204-207 | classifies through the singleton, or raises the missing-key error when it cannot be created |
| Alerting.ReadSettings | utils/alerting.py:19-32 | settings exist exactly when `SMTP_PORT` parses; recipients joined by commas give back the variable; e-mail on exactly for `true` in any case |
| Alerting.DefaultSettings | utils/alerting.py:19-32 | with no environment: port 587, e-mail off, recipient list `[""]` |
| Alerting.Retained | utils/alerting.py:162-166 | the new history ends with the alert, holds at most 100 entries, and is the suffix of old history plus alert |
| Alerting.RetainedDropsOldest | utils/alerting.py:162-166 | at the cap exactly the oldest entry is dropped |
| Alerting.RetainedKeepsAll | utils/alerting.py:162-166 | below the cap nothing is dropped |
| Alerting.HistoryView | utils/alerting.py:177-188 | `[]` without a history; otherwise a suffix, the last `limit` entries for a positive limit, the whole history for 0 |
| Alerting.NegativeLimitDropsOldest | utils/alerting.py:184 | a negative limit drops that many oldest entries |
| Alerting.EmergencySubjectReadsBack | utils/alerting.py:91 | the number between `(Urgency: ` and `/10)` in the subject parses back to the urgency |
| Alerting.EmergencySubjectInjective | utils/alerting.py:91 | alerts of different urgencies get different subjects |
| Alerting.EmergencyAlertId | utils/alerting.py:88 | alert ids start with `EMRG_` |
| Alerting.EmergencyAlertIdInjective | utils/alerting.py:88 | ids taken at different seconds differ |
| Alerting.AlertingSystem.constructor | utils/alerting.py:19-32 | holds the settings and the stored history, with nothing sent or logged |
| Alerting.AlertingSystem.SendEmailAlert | utils/alerting.py:34-77 | no SMTP attempt unless alerts are on and a user is set; reports sent exactly when configured and SMTP succeeded; logs otherwise |
| Alerting.AlertingSystem.SaveAlertHistory | utils/alerting.py:148-175 | the history becomes the retained history with the alert; nothing else changes |
| Alerting.AlertingSystem.GetAlertHistory | utils/alerting.py:177-188 | `[]` before any alert is saved; otherwise the newest alerts: the last `limit` for a positive limit, all of them for 0 |
| Alerting.ViewAfterSave | utils/alerting.py:155-188 | right after a save, `get_alert_history(1)` returns exactly the alert just saved |
| Alerting.AlertingSystem.SendEmergencyAlert | utils/alerting.py:79-129 | always reports the alert sent with its id and the contacts; `email_sent` carries the mail outcome; the alert is saved; the EMERGENCY mail goes to SMTP when configured and is logged when not delivered |
| Alerting.AlertingSystem.SendRoutineAlert | utils/alerting.py:131-134 | a MEDIUM mail headed by the category, handed to SMTP when configured and logged when not delivered; the history is untouched |
| Alerting.SendAlert | utils/alerting.py:193-202 | emergency exactly for type `emergency` in any case, with `Unknown Patient` and urgency 10 by default; otherwise a routine alert tagged `routine` whose category defaults to `GENERAL`; the mails tried, the log and the history of each branch; settings unchanged |
| EmergencyAgent.EmergencyTypeRange | agents/emergency_agent.py:128-143 | the type has a protocol, or is `general_emergency` exactly when no rule's word occurs |
| EmergencyAgent.HeartMeansChestPain | agents/emergency_agent.py:132-133 | "heart" alone gives chest pain |
| EmergencyAgent.BreathingUnlessChest | agents/emergency_agent.py:134-135 | a breathing word gives breathing difficulty unless a chest word occurs |
| EmergencyAgent.ProtocolFor | agents/emergency_agent.py:59-85 | every protocol calls 911 with urgency 8 to 10; `general_emergency` has none |
| EmergencyAgent.UrgencyHeader | agents/emergency_agent.py:181-187 | immediate from 9, urgent for 7 and 8, attention below 7 |
| EmergencyAgent.EmergencyResponseParts | agents/emergency_agent.py:177-212 | header, answer, actions when advice exists, the call-911 line exactly when urgency ≥ 8 or the protocol calls 911, the alert line by `alert_sent`, the three contacts last |
| EmergencyAgent.RecognisedEmergencyCalls911 | agents/emergency_agent.py:197-198 | every recognised emergency gets the call-911 line |
| EmergencyAgent.DefaultResponseAdvice | agents/emergency_agent.py:243-262 | from urgency 8 the default text says to call 911, below it to call the doctor |
| EmergencyAgent.MedicationNames | agents/emergency_agent.py:229-231 | at most the first three medication names, `Unknown` when unnamed |
| EmergencyAgent.PatientInfoParts | agents/emergency_agent.py:214-241 | name, age and gender first, each `Unknown` when missing; allergy, medication and contact lines only when present |
| EmergencyAgent.EmergencyOutcomeSpec | agents/emergency_agent.py:87-126 | the alert is always reported sent, the classification kept, and the reply opens with the header and model text and ends with the alert line and contacts |
| EmergencyAgent.HandleEmergency | agents/emergency_agent.py:87-126 | looks up the patient unless `unknown`, saves exactly one alert, hands its mail to SMTP when configured and logs it when not delivered, and returns the outcome |
| EmergencyAgent.LookUpPatient | agents/emergency_agent.py:91-97 | the patient is none for the id `unknown` (also the default when the state has no id) and otherwise the store's record for that id, as `PatientFor` defines it |
| EmergencyAgent.FallbackEmergencyResponse | agents/emergency_agent.py:264-288 | alert not sent, type `system_fallback`, classification kept, reply names the fallback alert id |
| SchedulerAgent.AnalyzeRequestType | agents/scheduler_agent.py:105-118 | the request type is one of five |
| SchedulerAgent.RescheduleIsBooked | agents/scheduler_agent.py:109-111 | any message with "reschedule" is a booking |
| SchedulerAgent.GeneralWhenNoWord | agents/scheduler_agent.py:105-118 | general exactly when no rule's word occurs |
| SchedulerAgent.FirstSearchHit | agents/scheduler_agent.py:242-246 | the hit is the group of the first pattern, in list order from the start, that matches; none exactly when no pattern matches |
| SchedulerAgent.SpecialtyOf | agents/scheduler_agent.py:249-254 | a specialty is set exactly when one of its words occurs |
| SchedulerAgent.CardiologyFirst | agents/scheduler_agent.py:249-250 | a cardiology word wins over the others |
| SchedulerAgent.ExtractSchedulingDetails | agents/scheduler_agent.py:229-256 | the loop with `break` yields the first pattern's hit and the specialty by priority |
| SchedulerAgent.SlotEntries | agents/scheduler_agent.py:262-268 | when no lookup raises: in order, exactly the doctors whose lookup gives slots, each with its first three slots |
| SchedulerAgent.TimeSlotsText | agents/scheduler_agent.py:258-273 | never empty; the call-office text when no doctor of the first three has slots |
| SchedulerAgent.NoDoctorsNoSlots | agents/scheduler_agent.py:270-271 | no doctors give the call-office text |
| SchedulerAgent.WiredSlotsRaise | agents/scheduler_agent.py:263 | as wired, listing slots for any doctor raises |
| SchedulerAgent.GetAvailableTimeSlots | agents/scheduler_agent.py:258-273 | the nested capped loops compute the slot listing |
| SchedulerAgent.SlotEntriesStop | agents/scheduler_agent.py:263 | a lookup that raises ends the listing with that exception |
| SchedulerAgent.FormatAppointments | agents/scheduler_agent.py:275-284 | the loop computes the appointment listing |
| SchedulerAgent.FormatAppointmentsLines | agents/scheduler_agent.py:275-284 | exactly one line per appointment, in order |
| SchedulerAgent.NumberedEntries | agents/scheduler_agent.py:163-165 | entries numbered from 1 in list order |
| SchedulerAgent.RenderNumbered | agents/scheduler_agent.py:162-165 | the `enumerate(…, 1)` loop concatenates the numbered entries |
| SchedulerAgent.HandleRescheduleRequest | agents/scheduler_agent.py:156-176 | the fixed text for no appointments, else the numbered listing, then the new times; the lookups may raise |
| SchedulerAgent.RescheduleListsEvery | agents/scheduler_agent.py:162-167 | when the lookups answer, every appointment is named with its number |
| SchedulerAgent.HandleCancelRequest | agents/scheduler_agent.py:178-192 | the fixed text for no appointments, else the numbered listing and the policy |
| SchedulerAgent.CancelListsEvery | agents/scheduler_agent.py:184-190 | every appointment is named with its number |
| SchedulerAgent.HandleCheckAppointments | agents/scheduler_agent.py:194-208 | the fixed text for no appointments, else one block per appointment |
| SchedulerAgent.CheckListsEvery | agents/scheduler_agent.py:199-206 | every appointment's block appears |
| SchedulerAgent.HandleGeneralScheduling | agents/scheduler_agent.py:210-227 | the menu, the doctors when any, and the closing question; the lookup may raise |
| SchedulerAgent.GeneralListsEveryDoctor | agents/scheduler_agent.py:219-223 | when the lookup answers, every doctor is named |
| SchedulerAgent.CanAutoBook | agents/scheduler_agent.py:303-307 | automatic booking is never possible |
| SchedulerAgent.WiredBookingFails | agents/scheduler_agent.py:120-154 | as wired, every booking ends in the trouble text |
| SchedulerAgent.StoreBooking | agents/scheduler_agent.py:127-150 | with the store's lookups: no doctor for the specialty gives the no-doctors text, otherwise the model's reply |
| SchedulerAgent.StoreSlotsReturn | agents/scheduler_agent.py:258-273 | the store's slot lookup never raises |
| SchedulerAgent.HandleBookingRequest | agents/scheduler_agent.py:120-154 | the booking branch with its internal `except` |
| SchedulerAgent.ScheduleOutcomeSpec | agents/scheduler_agent.py:63-103 | every path ends `scheduling_complete` and keeps the classification; the type is the analysed one, or `error` exactly when the branch raised |
| SchedulerAgent.OnlyLookupsRaise | agents/scheduler_agent.py:78-87 | booking, cancel and check never raise |
| SchedulerAgent.WiredScheduleErrors | agents/scheduler_agent.py:96-103 | as wired, a general request and a reschedule with appointments end in the error branch |
| SchedulerAgent.StoreScheduleNeverRaises | agents/scheduler_agent.py:70-94 | with the store's lookups no branch raises |
| SchedulerAgent.HandleSchedule | agents/scheduler_agent.py:63-103 | reads the patient's appointments (default `patient-001`) and returns the outcome |
| RecordsAgent.AnalyzeRecordsRequest | agents/medical_records_agent.py:126-143 | the request kind is one of seven |
| RecordsAgent.RecordsRequestPrecedence | agents/medical_records_agent.py:126-143 | a kind is chosen exactly when its word occurs and no earlier kind's does |
| RecordsAgent.HistoryWordWins | agents/medical_records_agent.py:130-131 | "history" always means medical history |
| RecordsAgent.HistoryListsEveryCondition | agents/medical_records_agent.py:145-162 | every condition on file is listed |
| RecordsAgent.HandleMedicalHistoryRequest | agents/medical_records_agent.py:145-162 | the fixed text for no history, else one entry per condition |
| RecordsAgent.MedicationsListsEvery | agents/medical_records_agent.py:164-185 | every medication on file is listed |
| RecordsAgent.HandleMedicationsRequest | agents/medical_records_agent.py:164-185 | the fixed text for no medications, else one entry per medication |
| RecordsAgent.AllergiesListsEvery | agents/medical_records_agent.py:187-207 | every allergy is named in bold on its own line |
| RecordsAgent.HandleAllergiesRequest | agents/medical_records_agent.py:187-207 | the fixed text for no allergies, else one line per allergy |
| RecordsAgent.SummaryListsEveryAllergy | agents/medical_records_agent.py:224-262 | the summary names every allergy |
| RecordsAgent.SummaryNoAllergies | agents/medical_records_agent.py:224-262 | with no allergies the summary shows the placeholder |
| RecordsAgent.RenderSection | agents/medical_records_agent.py:233-254 | a section's loop, or its placeholder when empty |
| RecordsAgent.HandleSummaryRequest | agents/medical_records_agent.py:224-262 | patient info, history, medications and allergies in that order |
| RecordsAgent.RecordsOutcomeSpec | agents/medical_records_agent.py:72-124 | verified exactly when the patient is on file; a patient on file gets the analysed request type; not-found exactly for an unknown patient, who gets only the not-found reply; `records_complete` always |
| RecordsAgent.AllergiesReachThePatient | agents/medical_records_agent.py:72-124 | a patient on file asking for allergies sees every one |
| RecordsAgent.HandleRecords | agents/medical_records_agent.py:72-124 | looks up the patient (default `patient-001`) and dispatches on the request kind |
| RecordsAgent.RecordsSystemError | agents/medical_records_agent.py:117-124 | `system_error`, `records_complete`, classification kept, reply gives the office phone |
| RoutineAgent.RelevantFaqs | agents/routine_query_agent.py:107-127 | at most three FAQs |
| RoutineAgent.WordMatchesSpec | agents/routine_query_agent.py:113-121 | the word search adds only table FAQs that match a word longer than three characters |
| RoutineAgent.RelevantFaqsSpec | agents/routine_query_agent.py:107-127 | every FAQ found is in the table and matches the whole question, or a long word only when the whole question matched nothing |
| RoutineAgent.EmptyQuestionTakesFirstThree | agents/routine_query_agent.py:107-123 | the empty question takes the first three FAQs |
| RoutineAgent.FindRelevantFaqs | agents/routine_query_agent.py:107-127 | the search and the word loop with its early stop |
| RoutineAgent.CommonTopic | agents/routine_query_agent.py:129-153 | none exactly when no topic word occurs; otherwise a canned reply |
| RoutineAgent.TopicTagHasReply | agents/routine_query_agent.py:59-65 | every key `_check_common_topics` looks up is present in `topic_responses`, so the lookup never fails |
| RoutineAgent.TimeMeansOfficeHours | agents/routine_query_agent.py:133-135 | any mention of "time" gets the office hours |
| RoutineAgent.Suggestion | agents/routine_query_agent.py:184-204 | the suggestion is a rule's or the default |
| RoutineAgent.AddFollowupSuggestions | agents/routine_query_agent.py:180-208 | the reply is kept as a prefix |
| RoutineAgent.FollowupEndsWithContacts | agents/routine_query_agent.py:180-208 | reply first, the one suggestion after it, the contact block last |
| RoutineAgent.AppointmentQuestionSuggestion | agents/routine_query_agent.py:184-186 | an appointment word gets the appointment suggestion |
| RoutineAgent.RoutineOutcomeSpec | agents/routine_query_agent.py:67-96 | `routine_complete`, `faqs_used` the number of FAQs found (at most three), classification kept; the reply starts with the topic text, or with the model's text when no topic matched |
| RoutineAgent.HandleRoutine | agents/routine_query_agent.py:67-96 | computes the outcome from the store's FAQs and the model's reply |
| RoutineAgent.RoutineError | agents/routine_query_agent.py:98-105 | `routine_error`, `routine_complete`, the fallback reply, classification kept |
| RoutineAgent.GetGeneralHealthInfo | agents/routine_query_agent.py:232-246 | the default text exactly for an unknown topic, ignoring case; otherwise a table entry |
| Config.AlertRecipients | config.py:96-99 | no more recipients than comma-separated pieces |
| Config.RecipientsAreClean | config.py:96-99 | every recipient is non-empty, trimmed and comma-free |
| Config.RecipientsOfJoin | config.py:96-99 | clean recipients joined by commas read back unchanged |
| Config.ReadAlertConfig | config.py:86-99 | e-mail on exactly for `true` in any case; recipients from the variable; the port is the parsed value |
| Config.Overridden | config.py:121-141 | the overrides keep the environment, the emergency and UI settings |
| Config.ProductionOverrides | config.py:124-129 | production turns on verification, access logging, tracing and e-mail, and lowers the temperature |
| Config.DevelopmentOverrides | config.py:131-134 | development turns verification off and debug on |
| Config.TestingOverrides | config.py:136-141 | testing swaps the data file, turns e-mail off and raises the rate limit to 1000 |
| Config.OtherEnvironmentUnchanged | config.py:121-141 | any other environment changes nothing |
| Config.OverridesIdempotent | config.py:121-141 | applying the overrides twice changes nothing more |
| Config.IssueTextInjective | config.py:143-168 | different checks report different issues |
| Config.IssueIff | config.py:143-168 | each check's issue appears exactly when the check fails |
| Config.IssuesFollowChecks | config.py:143-168 | at most five issues, each exactly when its check fails |
| Config.NoIssuesIff | config.py:143-168 | no issues exactly when every check passes |
| Config.DefaultSecretInProduction | config.py:165-166 | production with the default secret always reports it |
| Config.EmailWithoutUser | config.py:161-162 | e-mail without a user always reports it |
| Config.ProductionNeedsEmailUser | config.py:123-162 | production without an e-mail user reports it after the overrides |
| Config.TestingNoEmailIssue | config.py:136-162 | testing never reports the e-mail issue |
| Config.ProductionWithoutSecretKey | config.py:104-166 | starting in production without `SECRET_KEY` reports the default secret |
| Config.Summary | config.py:170-184 | security `high` exactly with patient verification, else `medium`; key status and alert flag as configured |
| Config.SummaryAgreesWithValidation | config.py:170-184 | the summary's key status agrees with the validation issues |
| Config.SecurityLevelByEnvironment | config.py:178 | after the overrides production is `high`, development `medium` |
| Config.DefaultIsDevelopment | config.py:104-119 | without `ENVIRONMENT` the configuration is development, debug on, security medium |
| Config.WithoutKey | config.py:192 | drops exactly the key and keeps everything else |
| Config.WithoutKeysContaining | config.py:193-195 | drops exactly the keys containing the word |
| Config.Export | config.py:186-198 | the export never carries `secret_key` nor an alert field whose name contains `password` |
| Config.ExportKeepsSettings | config.py:186-198 | the export still carries the verification setting and the recipients |
| Config.MedicalAIConfig.constructor | config.py:104-119 | the settings read from the environment, overridden for its environment |
| Config.MedicalAIConfig.ApplyEnvironmentSettings | config.py:121-141 | the fields become the overridden values |
| Config.MedicalAIConfig.ValidateConfig | config.py:143-168 | the appending loop yields one issue per failed check, in order |
| Config.ValidateConfiguration | config.py:208-216 | true exactly when there are no issues |
| MedicalGraph.BuildGraph | medical_graph/medical_graph.py:67-108 | the successive `add_node`/`add_edge` calls build the workflow table |
| MedicalGraph.GraphWiring | medical_graph/medical_graph.py:67-108 | the classifier is the entry; every router label has an edge; `error` goes straight to the response builder; specialists go to the builder, it to the memory updater, that to the end |
| MedicalGraph.EdgesDescend | medical_graph/medical_graph.py:83-108 | every edge leads strictly down a rank, so every run ends |
| MedicalGraph.RouterCases | medical_graph/medical_graph.py:242-255 | a missing intent is routine; a known intent routes to itself; `error` exactly for any other intent |
| MedicalGraph.Target | medical_graph/medical_graph.py:242-255 | the router leads to a specialist, or to the response builder exactly on `error` |
| MedicalGraph.ClassifierNode | medical_graph/medical_graph.py:110-120 | a classifier failure gives intent `error` with the error recorded and the inputs kept |
| MedicalGraph.Fallback | medical_graph/medical_graph.py:122-160 | each specialist's fallback text is non-empty |
| MedicalGraph.SpecialistNode | medical_graph/medical_graph.py:122-160 | a specialist failure keeps the state, sets the fallback text and records the error |
| MedicalGraph.ClosingsDistinct | medical_graph/medical_graph.py:179-186 | the four closings differ |
| MedicalGraph.ClosingChoice | medical_graph/medical_graph.py:177-186 | exactly one closing, by intent, with the generic one for every other intent |
| MedicalGraph.BaseResponse | medical_graph/medical_graph.py:165-168 | the agent's answer, or the apology when it is empty; never empty |
| MedicalGraph.ResponseBuilderNode | medical_graph/medical_graph.py:162-200 | the answer followed by its closing; marks the response built; nothing else changes |
| MedicalGraph.BuilderKeepsAnswer | medical_graph/medical_graph.py:165-186 | a non-empty answer is kept whole as a proper prefix |
| MedicalGraph.Memory.SaveInteraction | memory/memory_manager.py:41-64 | the input and answer join the messages, with the metadata as context |
| MedicalGraph.Memory.Cleared | memory/memory_manager.py:105-111 | no messages and no context remain |
| MedicalGraph.GetMemoryManager | memory/memory_manager.py:149-153 | a fresh memory for the patient, `default_patient` for an empty id |
| MedicalGraph.MemoryUpdated | medical_graph/medical_graph.py:202-240 | marks the exchange complete, or records the memory error when tracing fails |
| MedicalGraph.History | medical_graph/medical_graph.py:288-301 | `[]` for an unknown patient; otherwise one entry per stored message, in order |
| MedicalGraph.HistoryAfterSave | medical_graph/medical_graph.py:210-225 | saving adds exactly the message and the answer to that patient's history; other patients unchanged |
| MedicalGraph.ClearedHistory | medical_graph/medical_graph.py:303-307 | clearing empties that patient's history, keeps the others, and does nothing for an unknown patient |
| MedicalGraph.VisitsFollowGraph | medical_graph/medical_graph.py:83-108 | a run starts at the entry, follows the edges, visits at most one specialist and ends builder, updater, end |
| MedicalGraph.ClassifierFailureSkipsAgents | medical_graph/medical_graph.py:110-255 | a classifier failure skips every specialist and answers with the generic closing |
| MedicalGraph.SpecialistFailureAnswered | medical_graph/medical_graph.py:122-192 | a specialist failure's fallback, with its closing, is the reply |
| MedicalGraph.BuiltKeepsIdentity | medical_graph/medical_graph.py:110-200 | agents keeping the message and patient leave them unchanged through the run |
| MedicalGraph.EmergencyMessagesReachEmergencyAgent | medical_graph/medical_graph.py:110-255 | an emergency keyword always reaches the emergency agent |
| MedicalGraph.ModelFailureReachesAgent | medical_graph/medical_graph.py:110-255 | a failed model still reaches a specialist |
| MedicalGraph.PatientOrDefault | medical_graph/medical_graph.py:263 | an absent or empty id becomes `default_patient` |
| MedicalGraph.SessionIdInjective | medical_graph/medical_graph.py:267 | session ids are equal exactly for the same second |
| MedicalGraph.InitialState | medical_graph/medical_graph.py:261-270 | the state handed to the graph carries the message, patient, context and session |
| MedicalGraph.ProcessingFailure | medical_graph/medical_graph.py:280-286 | only the fallback reply, the error and `system_error` |
| MedicalGraph.ReplyOf | medical_graph/medical_graph.py:325 | the response, or the fixed no-response text |
| MedicalGraph.MedicalAIAgent.constructor | medical_graph/medical_graph.py:63-65 | the built graph and no memories |
| MedicalGraph.MedicalAIAgent.MemoryUpdaterNode | medical_graph/medical_graph.py:202-240 | gets or creates the patient's memory and saves exactly one interaction |
| MedicalGraph.MedicalAIAgent.Invoke | medical_graph/medical_graph.py:83-108 | the run visits the route of the graph and ends in the updated state and memories |
| MedicalGraph.MedicalAIAgent.ProcessMessage | medical_graph/medical_graph.py:257-286 | a non-empty built reply; the patient's history grows by exactly the message and its reply |
| MedicalGraph.MedicalAIAgent.GetConversationHistory | medical_graph/medical_graph.py:288-301 | reads the patient's history |
| MedicalGraph.MedicalAIAgent.ClearPatientMemory | medical_graph/medical_graph.py:303-307 | that patient's history becomes `[]`; others unchanged |
| MedicalGraph.ProcessPatientMessage | medical_graph/medical_graph.py:312-325 | the reply is the run's non-empty built response |

## Left out

- The language model is an arbitrary reply or a failure (`LlmReply`). Prompt texts are not modelled, and neither is what the model says.
- Loading and saving the JSON data file (`utils/fhir_utils.py:20-43`) are left out. The store starts from given tables.
- The alert history file is an `Option` of a list, and SMTP is a success flag. Logging is a list of logged alerts.
- The clock is a set of parameters: timestamps, epoch seconds and the current year.
- Environment variables are a map, and file existence is a function parameter.
- `print` calls in `config.py` (`print_config_summary`) are left out: output only.
- The LangGraph engine is replaced by a hand-written driver over the node and edge table. Whether LangGraph drops state keys outside the `MedicalAIState` declaration is not modelled. The model keeps every key a node writes.
- The `messages` key of the state and LangChain message objects are left out. History entries carry only kind, content and timestamp.
- `memory/memory_manager.py` beyond `save_interaction`, `get_conversation_history`, `clear_memory` and `get_memory_manager` is not part of this model. That covers summaries, medical context updates, relevant history, and session export and load.
- `GetMemoryManager`: `get_memory_manager` without an id returns a shared default memory. The model gives a fresh memory keyed `default_patient`, which is what the agent stores.
- Tracing (`trace_medical_interaction`) is a parameter saying whether it raised.
- The agents called by the graph are parameters of the run. Each module proves its own agent.
- `MedicalGraph.ProcessingFailure`: the `except` of `process_message` is a standalone function. No modelled step raises.
- The `except` of `_response_builder_node` cannot be reached in the model and is not modelled.
- The handler-level `except` branches of the emergency, records and routine agents cannot be reached in the model. They are standalone functions: `FallbackEmergencyResponse`, `RecordsSystemError` and `RoutineError`.
- The exception branch of the routine agent's FAQ search (`agents/routine_query_agent.py:125-127`) cannot be reached in the model.
- `require_authentication` and the rest of `utils/auth.py` are not part of this model. The decorator passes calls straight through, so `handle_records` is modelled undecorated.
- The module-level wrappers of `utils/fhir_utils.py` are modelled only as the scheduler's lookup parameters. `WiredDoctors` and `WiredSlots` are the wrappers as wired, which raise.
- Regular expressions are a search parameter. Only the first-match structure of `_extract_scheduling_details` is modelled.
- `_attempt_auto_booking` is not modelled: `CanAutoBook` is always false, so it is never reached.
- `_generate_scheduling_response`, `_generate_emergency_response` and `_generate_routine_response` are not modelled beyond their fallback texts: they only call the model.
- `Strings.Lower` and `Strings.Title` handle ASCII letters only. Python's Unicode case mapping is not modelled.
- `int()` parsing covers optional sign, digits, underscores between digits and surrounding whitespace. Other Unicode digits are not modelled.
- Temperatures are kept in tenths (`temperatureTenths`). Floating point is not modelled.
- `Config.MedicalAIConfig.constructor` and `Config.ReadAlertConfig` require `SMTP_PORT` to parse as an integer. Otherwise the source raises `ValueError` at import time.
- `IntentClassifier.ParseFormatRoundTrip` requires a non-empty, trimmed reasoning without newlines. It also requires a trimmed, lower-case intent, because the parser trims and lower-cases.
- The four sample messages of `test_system.py:84-89` are not proved to classify as expected. Deciding substring tests on concrete sentences is beyond the verifier's resource limit. The emergency shortcut and the fallback rules they exercise are proved for all messages.
- Streamlit UI, start-up scripts, LangSmith setup and the live model smoke test are not part of this model.
