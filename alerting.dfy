/** The alerting system of `utils/alerting.py`: an e-mail channel guarded by the
    settings, a history of emergency alerts capped at 100 entries, and the
    `send_alert` dispatch. The SMTP exchange, the history file and the clock are
    parameters: `smtpOk` says whether the SMTP exchange went through, and the
    history file is the field `history` (`None` while the file does not exist). */
module Alerting {
  import opened Common
  import opened Strings
  import opened Seqs

  /** The settings `AlertingSystem.__init__` reads from the environment. */
  datatype AlertSettings = AlertSettings(
    emailEnabled: bool,
    smtpServer: string,
    smtpPort: int,
    emailUser: string,
    emailPassword: string,
    recipients: seq<string>)

  /** `AlertingSystem.__init__`: `int()` on `SMTP_PORT` is the one step that can raise. */
  function ReadSettings(env: Env): (r: Attempt<AlertSettings>)
    ensures r.Returned? <==> ParseInt(Getenv(env, "SMTP_PORT", "587")).Some?
    ensures r.Returned? ==> Join(r.result.recipients, ",") == Getenv(env, "ALERT_RECIPIENTS", "")
    ensures r.Returned? ==> (r.result.emailEnabled <==> Lower(Getenv(env, "EMAIL_ALERTS_ENABLED", "false")) == "true")
  {
    var port := Getenv(env, "SMTP_PORT", "587");
    match ParseInt(port)
    case None => Raised("invalid literal for int() with base 10: '" + port + "'")
    case Some(p) =>
      JoinSplit(Getenv(env, "ALERT_RECIPIENTS", ""), ',');
      Returned(AlertSettings(
        Lower(Getenv(env, "EMAIL_ALERTS_ENABLED", "false")) == "true",
        Getenv(env, "SMTP_SERVER", "smtp.gmail.com"),
        p,
        Getenv(env, "ALERT_EMAIL_USER", ""),
        Getenv(env, "ALERT_EMAIL_PASSWORD", ""),
        Split(Getenv(env, "ALERT_RECIPIENTS", ""), ',')))
  }

  /** With nothing set, e-mail is off and the recipient list is `[""]`, since
      `"".split(",")` is `[""]`. */
  lemma DefaultSettings()
    ensures ReadSettings(map[]).Returned?
    ensures ReadSettings(map[]).result.smtpPort == 587
    ensures !ReadSettings(map[]).result.emailEnabled
    ensures ReadSettings(map[]).result.recipients == [""]
  {
    assert NatToString(5) == "5";
    assert NatToString(58) == "58";
    assert IntToString(587) == "587";
    ParseIntOfIntToString(587);
    assert Lower("false") == "false";
  }

  datatype Contact = Contact(name: string, phone: string, email: string)

  /** `self.emergency_contacts`. */
  const EmergencyContacts: seq<Contact> := [
    Contact("Emergency Response Team", "911", "emergency@hospital.com"),
    Contact("On-Call Doctor", "+1-555-DOCTOR", "oncall@hospital.com"),
    Contact("Nursing Station", "+1-555-NURSE", "nursing@hospital.com")]

  /** One entry of the alert history file. */
  datatype AlertData = AlertData(
    timestamp: string,
    patientInfo: string,
    symptoms: string,
    urgencyLevel: int,
    alertId: string)

  /** What `send_emergency_alert` returns. */
  datatype EmergencyResult = EmergencyResult(
    alertSent: bool,
    alertId: string,
    emailSent: bool,
    timestamp: string,
    contactsNotified: seq<Contact>)

  /** A message handed to the SMTP server. */
  datatype Email = Email(sender: string, to: string, subject: string, body: string, recipients: seq<string>)

  /** An alert written to the log instead of being mailed (`_log_alert`). */
  datatype LoggedAlert = LoggedAlert(timestamp: string, subject: string, message: string, priority: string)

  /** What `send_alert` returns: the emergency result, or `{"alert_sent": b, "type": "routine"}`. */
  datatype AlertOutcome = EmergencySent(result: EmergencyResult) | RoutineSent(alertSent: bool)

  const HistoryCap := 100

  /** The history after `history.append(alert)` and `history = history[-100:]`. */
  function Retained(h: seq<AlertData>, alert: AlertData): (r: seq<AlertData>)
    ensures |r| == if |h| + 1 <= HistoryCap then |h| + 1 else HistoryCap
    ensures r[|r| - 1] == alert
    ensures r == (h + [alert])[|h| + 1 - |r|..]
  {
    SliceFrom(h + [alert], -HistoryCap)
  }

  /** Once the history is full, each new alert drops exactly the oldest one. */
  lemma RetainedDropsOldest(h: seq<AlertData>, alert: AlertData)
    requires |h| == HistoryCap
    ensures Retained(h, alert) == h[1..] + [alert]
  {
    assert (h + [alert])[1..] == h[1..] + [alert];
  }

  /** Below the cap nothing is dropped. */
  lemma RetainedKeepsAll(h: seq<AlertData>, alert: AlertData)
    requires |h| < HistoryCap
    ensures Retained(h, alert) == h + [alert]
  {
    assert (h + [alert])[0..] == h + [alert];
  }

  /** `get_alert_history(limit)` on the stored history: `history[-limit:]`, or `[]`
      when no file exists. */
  function HistoryView(stored: Option<seq<AlertData>>, limit: int): (r: seq<AlertData>)
    ensures stored.None? ==> r == []
    ensures stored.Some? ==> |r| <= |stored.value| && r == stored.value[|stored.value| - |r|..]
    ensures stored.Some? && limit > 0 ==>
              |r| == if limit <= |stored.value| then limit else |stored.value|
    ensures stored.Some? && limit == 0 ==> r == stored.value
  {
    match stored
    case None => []
    case Some(h) => SliceFrom(h, -limit)
  }

  /** Right after an alert is saved, the newest entry of the history is that alert. */
  lemma ViewAfterSave(h: seq<AlertData>, alert: AlertData)
    ensures HistoryView(Some(Retained(h, alert)), 1) == [alert]
  {
    var r := Retained(h, alert);
    assert HistoryView(Some(r), 1) == r[|r| - 1..];
  }

  /** A negative limit counts from the front: `history[-(-2):]` drops the two
      oldest entries. */
  lemma NegativeLimitDropsOldest(h: seq<AlertData>, k: nat)
    requires k <= |h|
    ensures HistoryView(Some(h), -(k as int)) == h[k..]
  {
  }

  const SubjectPrefix := "EMERGENCY - Patient Alert "

  /** `(Urgency: N/10)`. */
  function UrgencyTag(urgency: int): string {
    "(Urgency: " + IntToString(urgency) + "/10)"
  }

  /** The subject line of an emergency mail. */
  function EmergencySubject(urgency: int): string {
    SubjectPrefix + UrgencyTag(urgency)
  }

  /** The urgency reads back from the subject: the text between `(Urgency: `
      and `/10)` parses to it. */
  lemma EmergencySubjectReadsBack(urgency: int)
    ensures var t := EmergencySubject(urgency);
      |t| >= |SubjectPrefix| + 14 && ParseInt(t[|SubjectPrefix| + 10..|t| - 4]) == Some(urgency)
  {
    var n := IntToString(urgency);
    var t := EmergencySubject(urgency);
    assert t == (SubjectPrefix + "(Urgency: ") + n + "/10)";
    assert t[|SubjectPrefix| + 10..|t| - 4] == n;
    ParseIntOfIntToString(urgency);
  }

  /** Subjects of different urgencies differ. */
  lemma EmergencySubjectInjective(u1: int, u2: int)
    requires EmergencySubject(u1) == EmergencySubject(u2)
    ensures u1 == u2
  {
    EmergencySubjectReadsBack(u1);
    EmergencySubjectReadsBack(u2);
  }

  /** `f"EMRG_{int(datetime.now().timestamp())}"`, the whole seconds of the clock. */
  function EmergencyAlertId(epochSeconds: int): (r: string)
    ensures |r| > 5 && r[..5] == "EMRG_"
  {
    "EMRG_" + IntToString(epochSeconds)
  }

  /** Alert ids taken at different seconds differ. */
  lemma EmergencyAlertIdInjective(s1: int, s2: int)
    requires EmergencyAlertId(s1) == EmergencyAlertId(s2)
    ensures s1 == s2
  {
    assert EmergencyAlertId(s1)[5..] == IntToString(s1);
    assert EmergencyAlertId(s2)[5..] == IntToString(s2);
    ParseIntOfIntToString(s1);
    ParseIntOfIntToString(s2);
  }

  const EmergencyMessageHead := "\nEMERGENCY MEDICAL ALERT\n\nPatient: "
  const EmergencyMessageTail := "\n\nIMMEDIATE RESPONSE REQUIRED\n\nRecommended Actions:\n- Contact patient immediately\n"
    + "- Dispatch emergency services if needed\n- Update patient status in system\n- Document response actions\n        "

  /** The mail text of `send_emergency_alert`. */
  function EmergencyMessage(patientInfo: string, symptoms: string, urgency: int, alertId: string): string {
    EmergencyMessageHead + patientInfo + "\nSymptoms: " + symptoms + "\nUrgency Level: " + IntToString(urgency)
    + "/10\nAlert ID: " + alertId + EmergencyMessageTail
  }

  const EmailBodyHead := "\nMEDICAL AI EMERGENCY ALERT\n\nPriority: "
  const EmailBodyTail := "\n\nThis is an automated alert from the Medical AI System.\n"
    + "Please respond immediately for HIGH priority alerts.\n            "

  /** The mail body of `send_email_alert`. */
  function EmailBody(priority: string, timestamp: string, subject: string, message: string): string {
    EmailBodyHead + priority + "\nTimestamp: " + timestamp + "\n\nAlert: " + subject + "\n\nDetails:\n" + message
    + EmailBodyTail
  }

  /** The subject line of every mail: `f"[{priority}] Medical AI Alert: {subject}"`. */
  function MailSubject(priority: string, subject: string): string {
    "[" + priority + "] Medical AI Alert: " + subject
  }

  /** The mail `send_email_alert` hands to SMTP. */
  function ComposeMail(settings: AlertSettings, subject: string, message: string, priority: string,
                       timestamp: string): Email
  {
    Email(settings.emailUser, Join(settings.recipients, ", "), MailSubject(priority, subject),
          EmailBody(priority, timestamp, subject, message), settings.recipients)
  }

  /** The mail `send_emergency_alert` hands to `send_email_alert`. */
  function EmergencyMail(settings: AlertSettings, patientInfo: string, symptoms: string, urgency: int,
                         epochSeconds: int, timestamp: string): Email
  {
    ComposeMail(settings, EmergencySubject(urgency),
                EmergencyMessage(patientInfo, symptoms, urgency, EmergencyAlertId(epochSeconds)), "EMERGENCY", timestamp)
  }

  /** The log entry `_log_alert` writes when the emergency mail does not go out. */
  function EmergencyLog(patientInfo: string, symptoms: string, urgency: int, epochSeconds: int,
                        timestamp: string): LoggedAlert
  {
    LoggedAlert(timestamp, EmergencySubject(urgency),
                EmergencyMessage(patientInfo, symptoms, urgency, EmergencyAlertId(epochSeconds)), "EMERGENCY")
  }

  /** `f"Medical AI Notification - {category}"`. */
  function RoutineSubject(category: string): string {
    "Medical AI Notification - " + category
  }

  class AlertingSystem {
    var settings: AlertSettings
    /** The history file's contents; `None` while it does not exist. */
    var history: Option<seq<AlertData>>
    /** Every message handed to the SMTP server, delivered or not. */
    var smtpAttempts: seq<Email>
    /** Every alert that was logged instead of delivered. */
    var logged: seq<LoggedAlert>

    constructor(settings: AlertSettings, history: Option<seq<AlertData>>)
      ensures this.settings == settings && this.history == history
      ensures smtpAttempts == [] && logged == []
    {
      this.settings := settings;
      this.history := history;
      smtpAttempts := [];
      logged := [];
    }

    /** Whether the guard of `send_email_alert` lets a mail through to SMTP. */
    predicate MailConfigured()
      reads this
    {
      settings.emailEnabled && settings.emailUser != ""
    }

    /** `send_email_alert`: unconfigured alerts are only logged and report
        `False`, with no SMTP attempt; a configured one is handed to SMTP and
        reports whether SMTP went through, and is logged when it did not. */
    method SendEmailAlert(subject: string, message: string, priority: string, timestamp: string, smtpOk: bool)
      returns (sent: bool)
      modifies this
      ensures sent <==> old(MailConfigured()) && smtpOk
      ensures smtpAttempts == if old(MailConfigured())
        then old(smtpAttempts) + [ComposeMail(settings, subject, message, priority, timestamp)]
        else old(smtpAttempts)
      ensures logged == if sent then old(logged) else old(logged) + [LoggedAlert(timestamp, subject, message, priority)]
      ensures settings == old(settings) && history == old(history)
    {
      if !settings.emailEnabled || settings.emailUser == "" {
        logged := logged + [LoggedAlert(timestamp, subject, message, priority)];
        return false;
      }
      smtpAttempts := smtpAttempts + [ComposeMail(settings, subject, message, priority, timestamp)];
      if !smtpOk {
        logged := logged + [LoggedAlert(timestamp, subject, message, priority)];
        return false;
      }
      return true;
    }

    /** `_save_alert_history`: load (an absent file is `[]`), append, keep the last 100. */
    method SaveAlertHistory(alert: AlertData)
      modifies this
      ensures history == Some(Retained(old(history).GetOr([]), alert))
      ensures settings == old(settings) && smtpAttempts == old(smtpAttempts) && logged == old(logged)
    {
      var h: seq<AlertData> := [];
      if history.Some? {
        h := history.value;
      }
      h := h + [alert];
      h := SliceFrom(h, -HistoryCap);
      history := Some(h);
    }

    /** `get_alert_history(limit)`: nothing before the first alert is saved;
        afterwards the newest alerts, `limit` of them for a positive limit and
        all of them for 0. */
    function GetAlertHistory(limit: int): (r: seq<AlertData>)
      reads this
      ensures history.None? ==> r == []
      ensures history.Some? ==> |r| <= |history.value| && r == history.value[|history.value| - |r|..]
      ensures history.Some? && limit > 0 ==>
                |r| == if limit <= |history.value| then limit else |history.value|
      ensures history.Some? && limit == 0 ==> r == history.value
    {
      HistoryView(history, limit)
    }

    /** `send_emergency_alert`: always reports the alert as sent, whatever the
        mail did; `timestamp` and `epochSeconds` are the clock's readings. */
    method SendEmergencyAlert(patientInfo: string, symptoms: string, urgency: int,
                              timestamp: string, epochSeconds: int, smtpOk: bool)
      returns (r: EmergencyResult)
      modifies this
      ensures r == EmergencyResult(true, EmergencyAlertId(epochSeconds), old(MailConfigured()) && smtpOk,
                                   timestamp, EmergencyContacts)
      ensures history == Some(Retained(old(history).GetOr([]),
                                       AlertData(timestamp, patientInfo, symptoms, urgency, EmergencyAlertId(epochSeconds))))
      ensures smtpAttempts == if old(MailConfigured())
        then old(smtpAttempts) + [EmergencyMail(settings, patientInfo, symptoms, urgency, epochSeconds, timestamp)]
        else old(smtpAttempts)
      ensures logged == if r.emailSent then old(logged)
        else old(logged) + [EmergencyLog(patientInfo, symptoms, urgency, epochSeconds, timestamp)]
      ensures settings == old(settings)
    {
      var alert := AlertData(timestamp, patientInfo, symptoms, urgency, EmergencyAlertId(epochSeconds));
      var subject := EmergencySubject(urgency);
      var message := EmergencyMessage(patientInfo, symptoms, urgency, alert.alertId);
      var emailSent := SendEmailAlert(subject, message, "EMERGENCY", timestamp, smtpOk);
      SaveAlertHistory(alert);
      r := EmergencyResult(true, alert.alertId, emailSent, timestamp, EmergencyContacts);
    }

    /** `send_routine_alert`: a `MEDIUM` mail headed by the category. */
    method SendRoutineAlert(message: string, category: string, timestamp: string, smtpOk: bool)
      returns (sent: bool)
      modifies this
      ensures sent <==> old(MailConfigured()) && smtpOk
      ensures smtpAttempts == if old(MailConfigured())
        then old(smtpAttempts) + [ComposeMail(settings, RoutineSubject(category), message, "MEDIUM", timestamp)]
        else old(smtpAttempts)
      ensures logged == if sent then old(logged)
        else old(logged) + [LoggedAlert(timestamp, RoutineSubject(category), message, "MEDIUM")]
      ensures settings == old(settings) && history == old(history)
    {
      sent := SendEmailAlert(RoutineSubject(category), message, "MEDIUM", timestamp, smtpOk);
    }
  }

  /** `send_alert` on the global manager: the optional arguments are the keyword
      arguments, absent when not passed. */
  method SendAlert(manager: AlertingSystem, message: string, alertType: string,
                   patientInfo: Option<string>, urgency: Option<int>, category: Option<string>,
                   timestamp: string, epochSeconds: int, smtpOk: bool)
    returns (r: AlertOutcome)
    modifies manager
    ensures r.EmergencySent? <==> Lower(alertType) == "emergency"
    ensures manager.settings == old(manager.settings)
    ensures r.EmergencySent? ==>
              var info, urgencyLevel := patientInfo.GetOr("Unknown Patient"), urgency.GetOr(10);
              r.result == EmergencyResult(true, EmergencyAlertId(epochSeconds), old(manager.MailConfigured()) && smtpOk,
                                          timestamp, EmergencyContacts)
              && manager.history == Some(Retained(old(manager.history).GetOr([]),
                   AlertData(timestamp, info, message, urgencyLevel, EmergencyAlertId(epochSeconds))))
              && manager.smtpAttempts == (if old(manager.MailConfigured())
                   then old(manager.smtpAttempts)
                        + [EmergencyMail(manager.settings, info, message, urgencyLevel, epochSeconds, timestamp)]
                   else old(manager.smtpAttempts))
              && manager.logged == (if r.result.emailSent then old(manager.logged)
                   else old(manager.logged) + [EmergencyLog(info, message, urgencyLevel, epochSeconds, timestamp)])
    ensures r.RoutineSent? ==>
              var subject := RoutineSubject(category.GetOr("GENERAL"));
              (r.alertSent <==> old(manager.MailConfigured()) && smtpOk) && manager.history == old(manager.history)
              && manager.smtpAttempts == (if old(manager.MailConfigured())
                   then old(manager.smtpAttempts) + [ComposeMail(manager.settings, subject, message, "MEDIUM", timestamp)]
                   else old(manager.smtpAttempts))
              && manager.logged == (if r.alertSent then old(manager.logged)
                   else old(manager.logged) + [LoggedAlert(timestamp, subject, message, "MEDIUM")])
  {
    if Lower(alertType) == "emergency" {
      var e := manager.SendEmergencyAlert(patientInfo.GetOr("Unknown Patient"), message, urgency.GetOr(10),
                                          timestamp, epochSeconds, smtpOk);
      r := EmergencySent(e);
    } else {
      var sent := manager.SendRoutineAlert(message, category.GetOr("GENERAL"), timestamp, smtpOk);
      r := RoutineSent(sent);
    }
  }
}
