/** The scheduler agent of `agents/scheduler_agent.py`: the request type read off
    the message, the preferences extracted from it, the listings it renders for
    booking, rescheduling, cancelling and checking, and the handler that
    dispatches on the request type.

    The agent reaches the store through the module-level helpers of
    `utils/fhir_utils.py`. Two of them do not match the calls made to them:
    `get_available_doctors()` takes no argument and calls a `get_doctors` the
    store does not have, and `get_doctor_availability(name, date)` is called
    with one argument. Both lookups are therefore parameters here: the
    listings are proved for any lookup, and `WiredDoctors` and `WiredSlots`
    are the lookups as the repository wires them, which always raise. */
module SchedulerAgent {
  import opened Common
  import opened Strings
  import opened Seqs
  import opened KeywordRules
  import opened AgentState
  import opened FhirUtils

  // ---------------------------------------------------------------- request type

  /** The branches of `_analyze_request_type`, in the order they are tried. */
  const RequestRules: seq<Rule> := [
    Rule(["book", "schedule", "make appointment", "new appointment"], "book"),
    Rule(["reschedule", "change", "move", "different time"], "reschedule"),
    Rule(["cancel", "delete", "remove"], "cancel"),
    Rule(["check", "see", "view", "list", "my appointments"], "check")]

  function AnalyzeRequestType(message: string): (t: string)
    ensures t in {"book", "reschedule", "cancel", "check", "general"}
  {
    Pick(Lower(message), RequestRules, "general")
  }

  /** "schedule" is tried first and occurs inside "reschedule", so a request
      to reschedule is taken as a booking. */
  lemma RescheduleIsBooked(message: string)
    requires Contains(Lower(message), "reschedule")
    ensures AnalyzeRequestType(message) == "book"
  {
    assert OccursAt("reschedule", "schedule", 2);
    ContainsAt("reschedule", "schedule", 2);
    ContainsTrans(Lower(message), "reschedule", "schedule");
    PickKeyword(Lower(message), RequestRules, "general", 1);
  }

  /** A message with none of the words is a general request. */
  lemma GeneralWhenNoWord(message: string)
    ensures AnalyzeRequestType(message) == "general" <==>
      forall j :: 0 <= j < |RequestRules| ==> !AnyIn(Lower(message), RequestRules[j].keywords)
  {
    PickDefault(Lower(message), RequestRules, "general");
  }

  // ---------------------------------------------------------------- preferences

  /** The regular expressions tried for a preferred time, in order. */
  const DatePatterns: seq<string> := [
    "(\\d{1,2}[/-]\\d{1,2}[/-]\\d{2,4})",
    "(monday|tuesday|wednesday|thursday|friday|saturday|sunday)",
    "(tomorrow|next week|this week)",
    "(morning|afternoon|evening)"]

  /** The branches that pick a specialty, in order; no branch leaves it unset. */
  const SpecialtyRules: seq<Rule> := [
    Rule(["cardiologist", "heart"], "Cardiology"),
    Rule(["dermatologist", "skin"], "Dermatology"),
    Rule(["general", "primary"], "Internal Medicine")]

  /** The dictionary `_extract_scheduling_details` returns; an absent key is `None`. */
  datatype Details = Details(preferredTime: Option<string>, specialty: Option<string>)

  /** `re.search(pattern, text).group(1)`, or `None` when the pattern does not
      match; the regular expressions themselves are not modelled. */
  type Search = (string, string) -> Option<string>

  /** The first group of the first pattern, from position `from` on, that matches. */
  function FirstSearchHit(search: Search, text: string, patterns: seq<string>, from: nat): (r: Option<string>)
    requires from <= |patterns|
    ensures r.Some? ==> exists k :: from <= k < |patterns| && search(patterns[k], text) == r
                                  && forall j :: from <= j < k ==> search(patterns[j], text).None?
    ensures r.None? <==> forall k :: from <= k < |patterns| ==> search(patterns[k], text).None?
    decreases |patterns| - from
  {
    if from == |patterns| then None
    else if search(patterns[from], text).Some? then search(patterns[from], text)
    else FirstSearchHit(search, text, patterns, from + 1)
  }

  function SpecialtyOf(messageLower: string): (r: Option<string>)
    ensures r.Some? <==> (AnyIn(messageLower, SpecialtyRules[0].keywords)
      || AnyIn(messageLower, SpecialtyRules[1].keywords) || AnyIn(messageLower, SpecialtyRules[2].keywords))
  {
    match FirstRule(messageLower, SpecialtyRules)
    case None => None
    case Some(i) => Some(SpecialtyRules[i].tag)
  }

  /** A cardiology word decides the specialty whatever else the message says. */
  lemma CardiologyFirst(message: string, k: nat)
    requires k < 2 && Contains(Lower(message), SpecialtyRules[0].keywords[k])
    ensures SpecialtyOf(Lower(message)) == Some("Cardiology")
  {
    AnyInAt(Lower(message), SpecialtyRules[0].keywords, k);
  }

  /** The details `_extract_scheduling_details` finds in `message`. */
  function DetailsOf(message: string, search: Search): Details {
    Details(FirstSearchHit(search, Lower(message), DatePatterns, 0), SpecialtyOf(Lower(message)))
  }

  /** `_extract_scheduling_details`: the patterns are tried in order until one
      matches; then the specialty chain. */
  method ExtractSchedulingDetails(message: string, search: Search) returns (details: Details)
    ensures details.preferredTime == FirstSearchHit(search, Lower(message), DatePatterns, 0)
    ensures details.specialty == SpecialtyOf(Lower(message))
  {
    var messageLower := Lower(message);
    var preferredTime: Option<string> := None;
    var i := 0;
    while i < |DatePatterns|
      invariant 0 <= i <= |DatePatterns|
      invariant FirstSearchHit(search, messageLower, DatePatterns, 0) == FirstSearchHit(search, messageLower, DatePatterns, i)
    {
      var hit := search(DatePatterns[i], messageLower);
      if hit.Some? {
        preferredTime := hit;
        break;
      }
      i := i + 1;
    }
    details := Details(preferredTime, SpecialtyOf(messageLower));
  }

  // ---------------------------------------------------------------- lookups

  /** The doctor lookup: `get_available_doctors(specialty)`. */
  type DoctorLookup = Option<string> -> Attempt<seq<Doctor>>

  /** The slot lookup: `get_doctor_availability(doctor_id)`. */
  type SlotLookup = string -> Attempt<seq<string>>

  /** The doctor lookup as wired: the helper takes no argument and calls a
      method the store lacks, so every call raises. */
  function WiredDoctors(): DoctorLookup {
    (specialty: Option<string>) => Raised("'FHIRUtils' object has no attribute 'get_doctors'")
  }

  /** The slot lookup as wired: the helper needs a date it is never given. */
  function WiredSlots(): SlotLookup {
    (doctorId: string) => Raised("get_doctor_availability() missing 1 required positional argument: 'date'")
  }

  /** The lookups as the store's own methods answer them. */
  function StoreDoctors(data: FhirData): DoctorLookup {
    (specialty: Option<string>) => Returned(AvailableDoctors(data.doctors, specialty))
  }

  function StoreSlots(data: FhirData): SlotLookup {
    (doctorId: string) => Returned(DoctorSlots(data.doctors, doctorId))
  }

  /** `f"{value}"` of an optional text. */
  function ShowOpt(o: Option<string>): string {
    o.GetOr("None")
  }

  // ---------------------------------------------------------------- time slots

  /** A doctor listed with the slots shown for them. */
  datatype SlotEntry = SlotEntry(doctor: Doctor, slots: seq<string>)

  /** Whether the lookup answers with at least one slot for the doctor. */
  function HasSlots(lookup: SlotLookup): Doctor -> bool {
    (d: Doctor) => var a := lookup(d.id.GetOr("")); a.Returned? && |a.result| > 0
  }

  /** A doctor listed with the first three slots the lookup answers. */
  function Listed(lookup: SlotLookup): Doctor -> SlotEntry {
    (d: Doctor) => var a := lookup(d.id.GetOr("")); SlotEntry(d, if a.Returned? then Take(a.result, 3) else [])
  }

  /** The doctors of `doctors` listed with their first three slots, skipping
      those with none; the first lookup that raises ends the listing. When no
      lookup raises, the entries are, in order, the doctors with slots, each
      with its first three. */
  function SlotEntries(doctors: seq<Doctor>, lookup: SlotLookup): (r: Attempt<seq<SlotEntry>>)
    ensures r.Returned? ==> |r.result| <= |doctors|
    ensures r.Returned? ==> forall k :: 0 <= k < |r.result| ==> 1 <= |r.result[k].slots| <= 3
    ensures r.Returned? ==> forall k :: 0 <= k < |doctors| ==> lookup(doctors[k].id.GetOr("")).Returned?
    ensures r.Returned? ==> r.result == Map(Filter(doctors, HasSlots(lookup)), Listed(lookup))
    decreases |doctors|
  {
    if |doctors| == 0 then Returned([])
    else
      var p, d := doctors[..|doctors| - 1], doctors[|doctors| - 1];
      assert doctors == p + [d];
      match SlotEntries(p, lookup)
      case Raised(m) => Raised(m)
      case Returned(entries) =>
        match lookup(d.id.GetOr(""))
        case Raised(m) => Raised(m)
        case Returned(slots) =>
          if |slots| > 0 then
            FilterSnocIn(p, d, HasSlots(lookup));
            MapAppend(Filter(p, HasSlots(lookup)), d, Listed(lookup));
            Returned(entries + [SlotEntry(d, Take(slots, 3))])
          else
            FilterSnocOut(p, d, HasSlots(lookup));
            Returned(entries)
  }

  function SlotEntryText(e: SlotEntry): string {
    "**" + ShowOpt(e.doctor.name) + " (" + ShowOpt(e.doctor.specialty) + ")**:\n"
    + Concat(Map(e.slots, (slot: string) => "  • " + slot + "\n")) + "\n"
  }

  const CallForAvailability := "Please call (555) 123-4567 to check current availability."

  /** `_get_available_time_slots`: at most three doctors with at most three
      slots each, or the call-office text when nothing is listed. */
  function TimeSlotsText(doctors: seq<Doctor>, lookup: SlotLookup): (r: Attempt<string>)
    ensures r.Returned? ==> r.result != ""
    ensures r.Returned? && SlotEntries(Take(doctors, 3), lookup) == Returned([]) ==> r.result == CallForAvailability
  {
    match SlotEntries(Take(doctors, 3), lookup)
    case Raised(m) => Raised(m)
    case Returned(entries) =>
      var text := Concat(Map(entries, SlotEntryText));
      Returned(if text == "" then CallForAvailability else text)
  }

  /** With no doctor to ask, nothing is looked up and the call-office text is returned. */
  lemma NoDoctorsNoSlots(lookup: SlotLookup)
    ensures TimeSlotsText([], lookup) == Returned(CallForAvailability)
  {
  }

  /** As wired, listing slots for any doctor raises. */
  lemma WiredSlotsRaise(doctors: seq<Doctor>)
    requires |doctors| > 0
    ensures TimeSlotsText(doctors, WiredSlots()).Raised?
  {
    var t := Take(doctors, 3);
    assert t[..|t| - 1][..0] == [];
    WiredSlotEntriesRaise(t);
  }

  lemma {:induction false} WiredSlotEntriesRaise(doctors: seq<Doctor>)
    requires |doctors| > 0
    ensures SlotEntries(doctors, WiredSlots()).Raised?
    decreases |doctors|
  {
    if |doctors| > 1 {
      WiredSlotEntriesRaise(doctors[..|doctors| - 1]);
    }
  }

  /** `_get_available_time_slots` as the loop over the first three doctors. */
  method GetAvailableTimeSlots(doctors: seq<Doctor>, lookup: SlotLookup) returns (r: Attempt<string>)
    ensures r == TimeSlotsText(doctors, lookup)
  {
    var shown := Take(doctors, 3);
    var entries: seq<SlotEntry> := [];
    var text := "";
    var i := 0;
    while i < |shown|
      invariant 0 <= i <= |shown|
      invariant SlotEntries(shown[..i], lookup) == Returned(entries)
      invariant text == Concat(Map(entries, SlotEntryText))
    {
      var d := shown[i];
      var slots := lookup(d.id.GetOr(""));
      if slots.Raised? {
        SlotEntriesStop(shown, i, lookup);
        return Raised(slots.message);
      }
      SlotEntriesNext(shown, i, lookup);
      if |slots.result| > 0 {
        var e := SlotEntry(d, Take(slots.result, 3));
        MapAppend(entries, e, SlotEntryText);
        entries := entries + [e];
        text := text + SlotEntryText(e);
      }
      i := i + 1;
    }
    assert shown[..i] == shown;
    if text == "" {
      text := CallForAvailability;
    }
    r := Returned(text);
  }

  /** A lookup that answers at position `i` extends the listing by that doctor
      when it lists a slot. */
  lemma SlotEntriesNext(doctors: seq<Doctor>, i: nat, lookup: SlotLookup)
    requires i < |doctors| && SlotEntries(doctors[..i], lookup).Returned?
    requires lookup(doctors[i].id.GetOr("")).Returned?
    ensures var slots := lookup(doctors[i].id.GetOr("")).result;
      var entries := SlotEntries(doctors[..i], lookup).result;
      SlotEntries(doctors[..i + 1], lookup)
        == Returned(if |slots| > 0 then entries + [SlotEntry(doctors[i], Take(slots, 3))] else entries)
  {
    assert doctors[..i + 1][..i] == doctors[..i];
  }

  /** A lookup that raises at position `i` ends the listing with that exception. */
  lemma {:induction false} SlotEntriesStop(doctors: seq<Doctor>, i: nat, lookup: SlotLookup)
    requires i < |doctors| && SlotEntries(doctors[..i], lookup).Returned?
    requires lookup(doctors[i].id.GetOr("")).Raised?
    ensures SlotEntries(doctors, lookup) == Raised(lookup(doctors[i].id.GetOr("")).message)
    decreases |doctors| - i
  {
    assert doctors[..i + 1][..i] == doctors[..i];
    if i + 1 < |doctors| {
      SlotEntriesRaised(doctors, i + 1, lookup);
    } else {
      assert doctors[..i + 1] == doctors;
    }
  }

  /** Once a prefix raised, every longer prefix raises with the same message. */
  lemma {:induction false} SlotEntriesRaised(doctors: seq<Doctor>, n: nat, lookup: SlotLookup)
    requires 0 < n <= |doctors| && SlotEntries(doctors[..n], lookup).Raised?
    ensures SlotEntries(doctors, lookup) == SlotEntries(doctors[..n], lookup)
    decreases |doctors| - n
  {
    if n < |doctors| {
      assert doctors[..n + 1][..n] == doctors[..n];
      SlotEntriesRaised(doctors, n + 1, lookup);
    } else {
      assert doctors[..n] == doctors;
    }
  }

  // ---------------------------------------------------------------- appointment lists

  /** One line of `_format_appointments`, without its newline. */
  function AppointmentLine(a: Appointment): string {
    "• " + Show(a, "doctor") + " - " + Show(a, "date") + " at " + Show(a, "time")
  }

  const NoCurrentAppointments := "No current appointments"

  function FormatAppointmentsText(appointments: seq<Appointment>): string {
    if |appointments| == 0 then NoCurrentAppointments else Lines(Map(appointments, AppointmentLine))
  }

  /** `_format_appointments`. */
  method FormatAppointments(appointments: seq<Appointment>) returns (formatted: string)
    ensures formatted == FormatAppointmentsText(appointments)
  {
    if |appointments| == 0 {
      return NoCurrentAppointments;
    }
    ghost var lines := Map(appointments, AppointmentLine);
    formatted := "";
    var i := 0;
    while i < |appointments|
      invariant 0 <= i <= |appointments|
      invariant formatted == Lines(lines[..i])
    {
      assert lines[..i + 1][..i] == lines[..i];
      formatted := formatted + AppointmentLine(appointments[i]) + "\n";
      i := i + 1;
    }
    assert lines[..i] == lines;
  }

  /** Exactly one line per appointment, in order, when no field holds a newline. */
  lemma FormatAppointmentsLines(appointments: seq<Appointment>)
    requires |appointments| > 0
    requires forall k :: 0 <= k < |appointments| ==> '\n' !in AppointmentLine(appointments[k])
    ensures Split(FormatAppointmentsText(appointments), '\n') == Map(appointments, AppointmentLine) + [""]
  {
    RenderedWithoutNewline(appointments, AppointmentLine);
    LinesSplit(Map(appointments, AppointmentLine));
  }

  /** The numbered entry of the reschedule and cancel listings. */
  function NumberedEntry(n: int, a: Appointment): string {
    IntToString(n) + ". **" + GetOr(a, "doctor", "Unknown Doctor") + "** - " + Show(a, "date") + " at "
    + Show(a, "time") + "\n" + "   Type: " + GetOr(a, "type", "Consultation") + "\n\n"
  }

  /** The entries numbered from 1 in list order. */
  function NumberedEntries(appointments: seq<Appointment>): (r: seq<string>)
    ensures |r| == |appointments|
    ensures forall k :: 0 <= k < |r| ==> r[k] == NumberedEntry(k + 1, appointments[k])
  {
    seq(|appointments|, k requires 0 <= k < |appointments| => NumberedEntry(k + 1, appointments[k]))
  }

  /** `enumerate(current_appointments, 1)` with its `+=` loop. */
  method RenderNumbered(appointments: seq<Appointment>, header: string) returns (text: string)
    ensures text == header + Concat(NumberedEntries(appointments))
  {
    ghost var entries := NumberedEntries(appointments);
    var listing := "";
    var i := 0;
    while i < |appointments|
      invariant 0 <= i <= |appointments|
      invariant listing == Concat(entries[..i])
    {
      ConcatStep(entries, i);
      listing := listing + NumberedEntry(i + 1, appointments[i]);
      i := i + 1;
    }
    assert entries[..i] == entries;
    text := header + listing;
  }

  const CurrentHeader := "Here are your current appointments:\n\n"
  const NothingToReschedule :=
    "I don't see any current appointments to reschedule. Would you like to book a new appointment instead?"
  const NothingToCancel := "I don't see any current appointments to cancel."

  const RescheduleAsk := "Which appointment would you like to reschedule? Please specify the doctor name or date."

  function RescheduleListing(appointments: seq<Appointment>): string {
    CurrentHeader + Concat(NumberedEntries(appointments)) + RescheduleAsk
  }

  /** The new times offered after the reschedule listing, when there are any. */
  function NewTimes(available: string): string {
    if available != "" then "\n\n**Available New Times:**\n" + available else ""
  }

  /** `_handle_reschedule_request`: the numbered list and, from the doctor and
      slot lookups, the new times; either lookup may raise. */
  function RescheduleText(appointments: seq<Appointment>, doctors: DoctorLookup, slots: SlotLookup): Attempt<string> {
    if |appointments| == 0 then Returned(NothingToReschedule)
    else
      var text := RescheduleListing(appointments);
      match doctors(None)
      case Raised(m) => Raised(m)
      case Returned(ds) =>
        match TimeSlotsText(ds, slots)
        case Raised(m) => Raised(m)
        case Returned(available) =>
          Returned(text + NewTimes(available))
  }

  method HandleRescheduleRequest(appointments: seq<Appointment>, doctors: DoctorLookup, slots: SlotLookup)
    returns (r: Attempt<string>)
    ensures r == RescheduleText(appointments, doctors, slots)
  {
    if |appointments| == 0 {
      return Returned(NothingToReschedule);
    }
    var text := RenderNumbered(appointments, CurrentHeader);
    text := text + RescheduleAsk;
    var available := doctors(None);
    if available.Raised? {
      return Raised(available.message);
    }
    var times := GetAvailableTimeSlots(available.result, slots);
    if times.Raised? {
      return Raised(times.message);
    }
    r := Returned(text + NewTimes(times.result));
  }

  const CancelPrompt := "Which appointment would you like to cancel? Please specify the doctor name or date.\n\n"
    + "⚠️ **Cancellation Policy:** Please cancel at least 24 hours in advance to avoid fees."

  function CancelText(appointments: seq<Appointment>): string {
    if |appointments| == 0 then NothingToCancel
    else CurrentHeader + Concat(NumberedEntries(appointments)) + CancelPrompt
  }

  /** `_handle_cancel_request`. */
  method HandleCancelRequest(appointments: seq<Appointment>) returns (text: string)
    ensures text == CancelText(appointments)
  {
    if |appointments| == 0 {
      return NothingToCancel;
    }
    text := RenderNumbered(appointments, CurrentHeader);
    text := text + CancelPrompt;
  }

  /** The block of `_handle_check_appointments` for one appointment. */
  function CheckEntry(a: Appointment): string {
    "• **" + GetOr(a, "doctor", "Unknown Doctor") + "**\n"
    + "  \U{1F4C5} " + Show(a, "date") + " at " + Show(a, "time") + "\n"
    + "  \U{1F3E5} " + GetOr(a, "type", "Consultation") + "\n"
    + "  \U{1F4CB} Status: " + Title(GetOr(a, "status", "Scheduled")) + "\n\n"
  }

  const NoUpcoming := "You don't have any upcoming appointments scheduled.\n\n"
    + "Would you like to book a new appointment? I can help you find available times with our doctors."
  const UpcomingHeader := "\U{1F4C5} **Your Upcoming Appointments:**\n\n"
  const ChangesPrompt := "Need to make changes? I can help you reschedule or cancel appointments."

  function CheckText(appointments: seq<Appointment>): string {
    if |appointments| == 0 then NoUpcoming
    else UpcomingHeader + Concat(Map(appointments, CheckEntry)) + ChangesPrompt
  }

  /** The cancel listing names every appointment it is given. */
  lemma CancelListsEvery(appointments: seq<Appointment>, k: nat)
    requires k < |appointments|
    ensures Contains(CancelText(appointments), NumberedEntry(k + 1, appointments[k]))
  {
    ListedInside(CurrentHeader, NumberedEntries(appointments), k, CancelPrompt);
  }

  /** The check listing names every appointment it is given. */
  lemma CheckListsEvery(appointments: seq<Appointment>, k: nat)
    requires k < |appointments|
    ensures Contains(CheckText(appointments), CheckEntry(appointments[k]))
  {
    ListedInside(UpcomingHeader, Map(appointments, CheckEntry), k, ChangesPrompt);
  }

  /** When its lookups answer, the reschedule listing names every appointment
      it is given. */
  lemma RescheduleListsEvery(appointments: seq<Appointment>, k: nat, doctors: DoctorLookup, slots: SlotLookup)
    requires k < |appointments|
    requires RescheduleText(appointments, doctors, slots).Returned?
    ensures Contains(RescheduleText(appointments, doctors, slots).result, NumberedEntry(k + 1, appointments[k]))
  {
    var entries := NumberedEntries(appointments);
    var available := TimeSlotsText(doctors(None).result, slots).result;
    ListedInside(CurrentHeader, entries, k, RescheduleAsk);
    ContainsExtend(RescheduleListing(appointments), NewTimes(available), entries[k]);
  }

  /** `_handle_check_appointments`. */
  method HandleCheckAppointments(appointments: seq<Appointment>) returns (text: string)
    ensures text == CheckText(appointments)
  {
    if |appointments| == 0 {
      return NoUpcoming;
    }
    var entries := AppendEach(appointments, CheckEntry);
    text := UpcomingHeader + entries + ChangesPrompt;
  }

  const GeneralIntro := "I'm here to help with your appointments! I can assist you with:\n\n"
    + "\U{1F4C5} **Booking new appointments**\n"
    + "\U{1F504} **Rescheduling existing appointments**\n"
    + "❌ **Canceling appointments**\n"
    + "\U{1F4CB} **Checking your current appointments**\n\n"

  function DoctorLine(d: Doctor): string {
    "• " + ShowOpt(d.name) + " - " + ShowOpt(d.specialty) + "\n"
  }

  /** `_handle_general_scheduling`: the menu, the doctors when there are any,
      and the closing question; the doctor lookup may raise. */
  function GeneralText(doctors: DoctorLookup): Attempt<string> {
    match doctors(None)
    case Raised(m) => Raised(m)
    case Returned(ds) =>
      Returned(GeneralIntro + DoctorsSection(ds) + GeneralQuestion)
  }

  /** The doctors named by the general menu, when there are any. */
  function DoctorsSection(ds: seq<Doctor>): string {
    if |ds| > 0 then DoctorsTitle + Concat(Map(ds, DoctorLine)) else ""
  }

  const DoctorsTitle := "**Available Doctors:**\n"
  const GeneralQuestion := "\nWhat would you like to do with your appointments?"

  /** When the doctor lookup answers, the general menu names every doctor. */
  lemma GeneralListsEveryDoctor(doctors: DoctorLookup, k: nat)
    requires doctors(None).Returned? && k < |doctors(None).result|
    ensures GeneralText(doctors).Returned?
    ensures Contains(GeneralText(doctors).result, DoctorLine(doctors(None).result[k]))
  {
    var ds := doctors(None).result;
    var parts := Map(ds, DoctorLine);
    ListedInside(DoctorsTitle, parts, k, "");
    assert DoctorsTitle + Concat(parts) + "" == DoctorsSection(ds);
    ContainsInside(GeneralIntro, DoctorsSection(ds), GeneralQuestion);
    ContainsTrans(GeneralText(doctors).result, DoctorsSection(ds), parts[k]);
  }

  method HandleGeneralScheduling(doctors: DoctorLookup) returns (r: Attempt<string>)
    ensures r == GeneralText(doctors)
  {
    var available := doctors(None);
    if available.Raised? {
      return Raised(available.message);
    }
    var ds := available.result;
    var doctorsText := "";
    if |ds| > 0 {
      var lines := AppendEach(ds, DoctorLine);
      doctorsText := DoctorsTitle + lines;
    }
    r := Returned(GeneralIntro + doctorsText + GeneralQuestion);
  }

  // ---------------------------------------------------------------- booking

  const NoDoctorsForSpecialty := "I'm sorry, but we don't have any doctors available for that specialty right now. "
    + "Please call our office at (555) 123-4567 for assistance."
  const BookingTrouble := "I'm having trouble accessing our scheduling system. Here are our available options:\n\n"
    + "\U{1F4DE} **Call us:** (555) 123-4567\n"
    + "\U{1F310} **Online portal:** patient.hospital.com\n\n"
    + "Our office hours are Monday-Friday 8 AM to 6 PM, Saturday 9 AM to 2 PM."

  /** `_can_auto_book`: automatic booking is switched off. */
  function CanAutoBook(details: Details, availableSlots: string): (b: bool)
    ensures !b
  {
    false
  }

  /** `_generate_scheduling_response`: the model's text, or the slots with a
      closing question when the model fails. */
  function SchedulingReply(reply: LlmReply, availableSlots: string): string {
    match reply
    case Reply(content) => content
    case Failure(_) =>
      "Here are the available time slots:\n\n" + availableSlots + "\n\nPlease let me know which time works best for you!"
  }

  /** `_handle_booking_request`: any exception in it yields the trouble text. */
  function BookingText(details: Details, doctors: DoctorLookup, slots: SlotLookup, reply: LlmReply): string {
    match doctors(details.specialty)
    case Raised(_) => BookingTrouble
    case Returned(ds) =>
      if |ds| == 0 then NoDoctorsForSpecialty
      else
        match TimeSlotsText(ds, slots)
        case Raised(_) => BookingTrouble
        case Returned(available) => SchedulingReply(reply, available)
  }

  /** As wired, every booking ends in the trouble text. */
  lemma WiredBookingFails(details: Details, reply: LlmReply)
    ensures BookingText(details, WiredDoctors(), WiredSlots(), reply) == BookingTrouble
  {
  }

  /** With the store's own lookups, a booking for a specialty nobody has gets
      the no-doctors text, and otherwise the model's answer or its fallback. */
  lemma StoreBooking(data: FhirData, details: Details, reply: LlmReply)
    ensures var b := BookingText(details, StoreDoctors(data), StoreSlots(data), reply);
      (AvailableDoctors(data.doctors, details.specialty) == [] ==> b == NoDoctorsForSpecialty)
      && (AvailableDoctors(data.doctors, details.specialty) != [] && reply.Reply? ==> b == reply.content)
  {
    var ds := AvailableDoctors(data.doctors, details.specialty);
    if ds != [] {
      StoreSlotsReturn(Take(ds, 3), data);
    }
  }

  /** The store's slot lookup never raises. */
  lemma {:induction false} StoreSlotsReturn(doctors: seq<Doctor>, data: FhirData)
    ensures SlotEntries(doctors, StoreSlots(data)).Returned?
    decreases |doctors|
  {
    if |doctors| > 0 {
      StoreSlotsReturn(doctors[..|doctors| - 1], data);
    }
  }

  method HandleBookingRequest(message: string, search: Search, doctors: DoctorLookup, slots: SlotLookup,
                              appointments: seq<Appointment>, reply: LlmReply)
    returns (text: string)
    ensures text == BookingText(DetailsOf(message, search), doctors, slots, reply)
  {
    var details := ExtractSchedulingDetails(message, search);
    var available := doctors(details.specialty);
    if available.Raised? {
      return BookingTrouble;
    }
    if |available.result| == 0 {
      return NoDoctorsForSpecialty;
    }
    var times := GetAvailableTimeSlots(available.result, slots);
    if times.Raised? {
      return BookingTrouble;
    }
    var currentText := FormatAppointments(appointments);
    text := SchedulingReply(reply, times.result);
  }

  // ---------------------------------------------------------------- handler

  const SchedulingTrouble := "I apologize, but I'm having trouble accessing the scheduling system right now. "
    + "Please call our office at (555) 123-4567 to schedule your appointment."

  /** `state.get("patient_id", "patient-001")`. */
  function SchedulePatientId(s: State): string {
    s.patientId.GetOr("patient-001")
  }

  /** The reply of the branch `handle_schedule` takes for `requestType`, or the
      exception it raised. */
  function ScheduleResponse(requestType: string, message: string, appointments: seq<Appointment>,
                            search: Search, doctors: DoctorLookup, slots: SlotLookup, reply: LlmReply)
    : Attempt<string>
  {
    if requestType == "book" then Returned(BookingText(DetailsOf(message, search), doctors, slots, reply))
    else if requestType == "reschedule" then RescheduleText(appointments, doctors, slots)
    else if requestType == "cancel" then Returned(CancelText(appointments))
    else if requestType == "check" then Returned(CheckText(appointments))
    else GeneralText(doctors)
  }

  /** The state `handle_schedule` returns, given the patient's appointments,
      the lookups and the model's reply. */
  function ScheduleOutcome(s: State, appointments: seq<Appointment>, search: Search, doctors: DoctorLookup,
                           slots: SlotLookup, reply: LlmReply): State {
    var requestType := AnalyzeRequestType(MessageOf(s));
    match ScheduleResponse(requestType, MessageOf(s), appointments, search, doctors, slots, reply)
    case Returned(text) =>
      s.(response := Some(text), requestType := Some(requestType), nextAction := Some("scheduling_complete"))
    case Raised(_) =>
      s.(response := Some(SchedulingTrouble), requestType := Some("error"), nextAction := Some("scheduling_complete"))
  }

  /** Every path completes scheduling and keeps the classification; the request
      type is the analysed one, or `error` exactly when the branch raised. */
  lemma ScheduleOutcomeSpec(s: State, appointments: seq<Appointment>, search: Search, doctors: DoctorLookup,
                            slots: SlotLookup, reply: LlmReply)
    ensures var r := ScheduleOutcome(s, appointments, search, doctors, slots, reply);
      var t := AnalyzeRequestType(MessageOf(s));
      var branch := ScheduleResponse(t, MessageOf(s), appointments, search, doctors, slots, reply);
      r.nextAction == Some("scheduling_complete") && KeepsClassification(s, r) && r.error == s.error
      && (r.requestType == Some("error") <==> branch.Raised?)
      && (branch.Raised? ==> r.response == Some(SchedulingTrouble))
      && (branch.Returned? ==> r.requestType == Some(t) && r.response == Some(branch.result))
  {
  }

  /** Only rescheduling and the general menu consult the doctor lookup outside
      the booking branch, so only they can end in the error reply. */
  lemma OnlyLookupsRaise(requestType: string, message: string, appointments: seq<Appointment>, search: Search,
                         doctors: DoctorLookup, slots: SlotLookup, reply: LlmReply)
    requires requestType in {"book", "cancel", "check"}
    ensures ScheduleResponse(requestType, message, appointments, search, doctors, slots, reply).Returned?
  {
  }

  /** As wired: a general request, and a reschedule request with appointments
      to list, end in the error reply. */
  lemma WiredScheduleErrors(requestType: string, message: string, appointments: seq<Appointment>, search: Search,
                            reply: LlmReply)
    requires requestType == "general" || (requestType == "reschedule" && |appointments| > 0)
    ensures ScheduleResponse(requestType, message, appointments, search, WiredDoctors(), WiredSlots(), reply).Raised?
  {
  }

  /** With the store's own lookups no branch raises: the error reply is never given. */
  lemma StoreScheduleNeverRaises(requestType: string, message: string, data: FhirData,
                                 appointments: seq<Appointment>, search: Search, reply: LlmReply)
    ensures ScheduleResponse(requestType, message, appointments, search, StoreDoctors(data), StoreSlots(data),
                             reply).Returned?
  {
    if requestType == "reschedule" && |appointments| > 0 {
      StoreSlotsReturn(Take(data.doctors, 3), data);
      assert TimeSlotsText(data.doctors, StoreSlots(data)).Returned?;
    } else if requestType != "book" && requestType != "reschedule" && requestType != "cancel"
      && requestType != "check" {
      assert GeneralText(StoreDoctors(data)).Returned?;
    }
  }

  /** `handle_schedule`: reads the patient's appointments from the store and
      dispatches on the request type. */
  method HandleSchedule(s: State, store: FhirStore, search: Search, doctors: DoctorLookup, slots: SlotLookup,
                        reply: LlmReply)
    returns (r: State)
    ensures r == ScheduleOutcome(s, PatientAppointments(store.data.appointments, SchedulePatientId(s)),
                                 search, doctors, slots, reply)
  {
    var message := MessageOf(s);
    var requestType := AnalyzeRequestType(message);
    var appointments := store.GetPatientAppointments(SchedulePatientId(s));
    var response: Attempt<string>;
    if requestType == "book" {
      var text := HandleBookingRequest(message, search, doctors, slots, appointments, reply);
      response := Returned(text);
    } else if requestType == "reschedule" {
      response := HandleRescheduleRequest(appointments, doctors, slots);
    } else if requestType == "cancel" {
      var text := HandleCancelRequest(appointments);
      response := Returned(text);
    } else if requestType == "check" {
      var text := HandleCheckAppointments(appointments);
      response := Returned(text);
    } else {
      response := HandleGeneralScheduling(doctors);
    }
    if response.Raised? {
      return s.(response := Some(SchedulingTrouble), requestType := Some("error"),
                nextAction := Some("scheduling_complete"));
    }
    r := s.(response := Some(response.result), requestType := Some(requestType),
            nextAction := Some("scheduling_complete"));
  }
}
