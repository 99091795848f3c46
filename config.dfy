/** The configuration of `config.py`: one value per settings group, the
    `MedicalAIConfig` object that holds them and overrides them per environment,
    the validation that lists configuration issues, the settings summary and the
    export that leaves the secrets out. The environment is a map passed in, and
    whether the data file exists is a predicate passed in. */
module Config {
  import opened Common
  import opened Strings
  import opened Seqs

  // ---------------------------------------------------------------- settings groups

  datatype DatabaseConfig = DatabaseConfig(
    fhirDataFile: string,
    alertHistoryFile: string,
    backupEnabled: bool,
    backupIntervalHours: int)

  /** The sampling temperature is kept in tenths (0.0 is 0, 0.1 is 1). */
  datatype AiConfig = AiConfig(
    defaultModel: string,
    temperatureTenths: int,
    maxTokens: int,
    fallbackModel: string,
    apiTimeout: int)

  datatype EmergencyConfig = EmergencyConfig(
    urgencyThreshold: int,
    autoAlertEnabled: bool,
    emergencyKeywords: seq<string>,
    maxResponseTime: int)

  datatype SecurityConfig = SecurityConfig(
    sessionTimeoutHours: int,
    maxLoginAttempts: int,
    requirePatientVerification: bool,
    logAllAccess: bool,
    encryptSensitiveData: bool,
    secretKey: string)

  datatype MonitoringConfig = MonitoringConfig(
    langsmithEnabled: bool,
    traceAllInteractions: bool,
    performanceMonitoring: bool,
    errorAlerting: bool,
    analyticsRetentionDays: int)

  datatype UiConfig = UiConfig(
    appTitle: string,
    appIcon: string,
    maxMessageHistory: int,
    autoScroll: bool,
    showTimestamps: bool,
    theme: string)

  datatype ApiConfig = ApiConfig(
    groqApiKey: string,
    langchainApiKey: string,
    langsmithApiKey: string,
    rateLimitPerMinute: int,
    retryAttempts: int)

  datatype AlertConfig = AlertConfig(
    emailEnabled: bool,
    smtpServer: string,
    smtpPort: int,
    emailUser: string,
    emailPassword: string,
    alertRecipients: seq<string>)

  /** Every setting of a `MedicalAIConfig` at one moment. */
  datatype ConfigValues = ConfigValues(
    database: DatabaseConfig,
    ai: AiConfig,
    emergency: EmergencyConfig,
    security: SecurityConfig,
    monitoring: MonitoringConfig,
    ui: UiConfig,
    api: ApiConfig,
    alerts: AlertConfig,
    environment: string,
    debug: bool)

  const DefaultSecretKey := "change-in-production"
  const GroqPlaceholder := "your_groq_key_here"
  const KeyPlaceholder := "your_key_here"
  const TestDataFile := "data/test_fhir_records.json"

  const DefaultDatabase := DatabaseConfig("data/sample_fhir_records.json", "data/alert_history.json", true, 24)
  const DefaultAi := AiConfig("llama-3.1-70b-versatile", 0, 1000, "llama-3.1-8b-instant", 30)

  /** `EmergencyConfig.__post_init__`'s keyword list. */
  const EmergencyKeywords := [
    "chest pain", "heart attack", "shortness of breath",
    "difficulty breathing", "severe headache", "stroke",
    "unconscious", "bleeding heavily", "severe allergic reaction",
    "suicide", "overdose", "can't breathe", "severe pain", "emergency"]

  const DefaultEmergency := EmergencyConfig(7, true, EmergencyKeywords, 5)
  const DefaultMonitoring := MonitoringConfig(true, true, true, true, 90)
  const DefaultUi := UiConfig("Medical AI Assistant", "🩺", 50, true, true, "light")

  // ---------------------------------------------------------------- reading the environment

  /** `[r.strip() for r in s.split(",") if r.strip()]`. */
  function AlertRecipients(s: string): (r: seq<string>)
    ensures |r| <= |Split(s, ',')|
  {
    Filter(Map(Split(s, ','), Strip), (x: string) => x != "")
  }

  /** A recipient as `AlertRecipients` keeps it: non-empty, free of commas and
      of whitespace at either end. */
  predicate CleanRecipient(x: string) {
    x != "" && ',' !in x && !IsSpace(x[0]) && !IsSpace(x[|x| - 1])
  }

  /** Stripping keeps a piece of the text: no character is added. */
  lemma {:induction false} StripInside(s: string, c: char)
    requires c !in s
    ensures c !in Strip(s)
  {
    var l := StripLeft(s);
    StripLeftSuffix(s);
    assert c !in l by {
      forall i | 0 <= i < |l| ensures l[i] != c {
        assert l[i] == s[|s| - |l| + i];
      }
    }
    var r := StripRight(l);
    StripRightPrefix(l);
    forall i | 0 <= i < |r| ensures r[i] != c {
      assert r[i] == l[i];
    }
  }

  /** A piece without a comma strips to a clean recipient or to nothing. */
  lemma StrippedClean(p: string)
    requires ',' !in p
    ensures Strip(p) == "" || CleanRecipient(Strip(p))
  {
    StripInside(p, ',');
  }

  /** Every recipient read from the environment is clean. */
  lemma RecipientsAreClean(s: string)
    ensures forall k :: 0 <= k < |AlertRecipients(s)| ==> CleanRecipient(AlertRecipients(s)[k])
  {
    var parts := Split(s, ',');
    var stripped := Map(parts, Strip);
    var r := AlertRecipients(s);
    forall k | 0 <= k < |r| ensures CleanRecipient(r[k]) {
      assert r[k] in r;
      var j :| 0 <= j < |stripped| && stripped[j] == r[k];
      StrippedClean(parts[j]);
    }
  }

  /** Stripping clean recipients leaves them as they are. */
  lemma {:induction false} StripClean(names: seq<string>)
    requires forall k :: 0 <= k < |names| ==> CleanRecipient(names[k])
    ensures Map(names, Strip) == names
  {
    if |names| > 0 {
      assert CleanRecipient(names[0]);
      StripTrimmed(names[0]);
      StripClean(names[1..]);
      assert names == [names[0]] + names[1..];
    }
  }

  /** Writing clean recipients separated by commas and reading them back gives
      the same list. */
  lemma RecipientsOfJoin(names: seq<string>)
    requires forall k :: 0 <= k < |names| ==> CleanRecipient(names[k])
    ensures AlertRecipients(Join(names, ",")) == names
  {
    if |names| == 0 {
      assert Split("", ',') == [""];
      assert Map([""], Strip) == [""];
    } else {
      assert forall k :: 0 <= k < |names| ==> ',' !in names[k];
      SplitJoin(names, ',');
      assert Split(Join(names, ","), ',') == names;
      StripClean(names);
      FilterAll(names, (x: string) => x != "");
    }
  }

  /** `int(os.getenv("SMTP_PORT", "587"))` succeeds. */
  predicate SmtpPortParses(env: Env) {
    ParseInt(Getenv(env, "SMTP_PORT", "587")).Some?
  }

  /** `AlertConfig()`: its defaults are read from the environment. */
  function ReadAlertConfig(env: Env): (r: AlertConfig)
    requires SmtpPortParses(env)
    ensures r.emailEnabled <==> Lower(Getenv(env, "EMAIL_ALERTS_ENABLED", "false")) == "true"
    ensures r.alertRecipients == AlertRecipients(Getenv(env, "ALERT_RECIPIENTS", ""))
    ensures Some(r.smtpPort) == ParseInt(Getenv(env, "SMTP_PORT", "587"))
  {
    AlertConfig(
      Lower(Getenv(env, "EMAIL_ALERTS_ENABLED", "false")) == "true",
      Getenv(env, "SMTP_SERVER", "smtp.gmail.com"),
      ParseInt(Getenv(env, "SMTP_PORT", "587")).value,
      Getenv(env, "ALERT_EMAIL_USER", ""),
      Getenv(env, "ALERT_EMAIL_PASSWORD", ""),
      AlertRecipients(Getenv(env, "ALERT_RECIPIENTS", "")))
  }

  /** The settings `MedicalAIConfig.__init__` builds before the environment
      overrides are applied. */
  function InitialValues(env: Env): ConfigValues
    requires SmtpPortParses(env)
  {
    ConfigValues(
      DefaultDatabase,
      DefaultAi,
      DefaultEmergency,
      SecurityConfig(8, 3, true, true, true, Getenv(env, "SECRET_KEY", DefaultSecretKey)),
      DefaultMonitoring,
      DefaultUi,
      ApiConfig(Getenv(env, "GROQ_API_KEY", ""), Getenv(env, "LANGCHAIN_API_KEY", ""),
        Getenv(env, "LANGSMITH_API_KEY", ""), 60, 3),
      ReadAlertConfig(env),
      Getenv(env, "ENVIRONMENT", "development"),
      Lower(Getenv(env, "DEBUG", "false")) == "true")
  }

  // ---------------------------------------------------------------- environment overrides

  /** What `_apply_environment_settings` makes of the settings. */
  function Overridden(v: ConfigValues): (r: ConfigValues)
    ensures r.environment == v.environment
    ensures r.emergency == v.emergency && r.ui == v.ui
  {
    if v.environment == "production" then
      v.(ai := v.ai.(temperatureTenths := 0),
         security := v.security.(requirePatientVerification := true, logAllAccess := true),
         monitoring := v.monitoring.(traceAllInteractions := true),
         alerts := v.alerts.(emailEnabled := true))
    else if v.environment == "development" then
      v.(ai := v.ai.(temperatureTenths := 1),
         security := v.security.(requirePatientVerification := false),
         debug := true)
    else if v.environment == "testing" then
      v.(database := v.database.(fhirDataFile := TestDataFile),
         alerts := v.alerts.(emailEnabled := false),
         api := v.api.(rateLimitPerMinute := 1000))
    else v
  }

  /** Production turns patient verification, access logging, tracing and
      e-mail alerts on, and leaves the keys, the data file and debug alone. */
  lemma ProductionOverrides(v: ConfigValues)
    requires v.environment == "production"
    ensures var r := Overridden(v);
      r.security.requirePatientVerification && r.security.logAllAccess
      && r.monitoring.traceAllInteractions && r.alerts.emailEnabled
      && r.ai.temperatureTenths == 0
      && r.security.secretKey == v.security.secretKey && r.api == v.api
      && r.database == v.database && r.debug == v.debug
      && r.alerts.emailUser == v.alerts.emailUser
  {
  }

  /** Development turns patient verification off and debug on. */
  lemma DevelopmentOverrides(v: ConfigValues)
    requires v.environment == "development"
    ensures var r := Overridden(v);
      !r.security.requirePatientVerification && r.debug && r.ai.temperatureTenths == 1
      && r.alerts == v.alerts && r.api == v.api && r.database == v.database
  {
  }

  /** Testing swaps the data file, turns e-mail alerts off and raises the rate
      limit to 1000. */
  lemma TestingOverrides(v: ConfigValues)
    requires v.environment == "testing"
    ensures var r := Overridden(v);
      r.database.fhirDataFile == TestDataFile && !r.alerts.emailEnabled
      && r.api.rateLimitPerMinute == 1000
      && r.security == v.security && r.debug == v.debug && r.ai == v.ai
  {
  }

  /** Any other environment changes nothing. */
  lemma OtherEnvironmentUnchanged(v: ConfigValues)
    requires v.environment !in {"production", "development", "testing"}
    ensures Overridden(v) == v
  {
  }

  /** Applying the overrides a second time changes nothing more. */
  lemma OverridesIdempotent(v: ConfigValues)
    ensures Overridden(Overridden(v)) == Overridden(v)
  {
  }

  // ---------------------------------------------------------------- validation

  /** `bool(key and key != placeholder)`. */
  predicate KeyConfigured(key: string, placeholder: string) {
    key != "" && key != placeholder
  }

  /** The checks of `validate_config`, in the order it makes them. */
  datatype Check = GroqKey | LangsmithKey | DataFile | EmailUser | SecretKey

  /** Whether a check finds an issue; `fileExists` answers `os.path.exists`. */
  predicate Fails(v: ConfigValues, fileExists: string -> bool, c: Check) {
    match c
    case GroqKey => !KeyConfigured(v.api.groqApiKey, GroqPlaceholder)
    case LangsmithKey => v.monitoring.langsmithEnabled && !KeyConfigured(v.api.langsmithApiKey, KeyPlaceholder)
    case DataFile => !fileExists(v.database.fhirDataFile)
    case EmailUser => v.alerts.emailEnabled && v.alerts.emailUser == ""
    case SecretKey => v.environment == "production" && v.security.secretKey == DefaultSecretKey
  }

  const GroqIssue := "Groq API key not configured"
  const LangsmithIssue := "LangSmith API key not configured" + " but monitoring is enabled"
  const DataFileIssue := "FHIR data file not found: "
  const EmailIssue := "Email alerts enabled" + " but no email user configured"
  const SecretIssue := "Default secret key detected" + " in production environment"

  /** The issue a failed check reports. */
  function IssueText(c: Check, dataFile: string): (r: string)
    ensures |r| > 0
  {
    match c
    case GroqKey => GroqIssue
    case LangsmithKey => LangsmithIssue
    case DataFile => DataFileIssue + dataFile
    case EmailUser => EmailIssue
    case SecretKey => SecretIssue
  }

  /** The letter each check's issue starts with. */
  function Initial(c: Check): char {
    match c
    case GroqKey => 'G'
    case LangsmithKey => 'L'
    case DataFile => 'F'
    case EmailUser => 'E'
    case SecretKey => 'D'
  }

  lemma IssueTextInitial(c: Check, dataFile: string)
    ensures IssueText(c, dataFile)[0] == Initial(c)
  {
    match c
    case GroqKey =>
    case LangsmithKey =>
      assert IssueText(c, dataFile)[0] == "LangSmith API key not configured"[0];
    case DataFile =>
      assert (DataFileIssue + dataFile)[0] == DataFileIssue[0];
    case EmailUser =>
      assert IssueText(c, dataFile)[0] == "Email alerts enabled"[0];
    case SecretKey =>
      assert IssueText(c, dataFile)[0] == "Default secret key detected"[0];
  }

  /** Different checks report different issues. */
  lemma IssueTextInjective(c: Check, d: Check, dataFile: string)
    requires IssueText(c, dataFile) == IssueText(d, dataFile)
    ensures c == d
  {
    IssueTextInitial(c, dataFile);
    IssueTextInitial(d, dataFile);
  }

  /** A check's contribution to the list of issues: its issue when it fails. */
  function IssueIf(v: ConfigValues, fileExists: string -> bool, c: Check): seq<string> {
    if Fails(v, fileExists, c) then [IssueText(c, v.database.fhirDataFile)] else []
  }

  /** The list `validate_config` returns: the checks' contributions in the
      order it makes them. */
  function ConfigIssues(v: ConfigValues, fileExists: string -> bool): seq<string> {
    IssueIf(v, fileExists, GroqKey) + IssueIf(v, fileExists, LangsmithKey) + IssueIf(v, fileExists, DataFile)
    + IssueIf(v, fileExists, EmailUser) + IssueIf(v, fileExists, SecretKey)
  }

  /** A check's contribution holds the issue of `c` exactly when it is the
      check of `c` and fails. */
  lemma InIssueIf(v: ConfigValues, fileExists: string -> bool, c: Check, d: Check)
    ensures IssueText(c, v.database.fhirDataFile) in IssueIf(v, fileExists, d) <==> c == d && Fails(v, fileExists, c)
  {
    if IssueText(c, v.database.fhirDataFile) in IssueIf(v, fileExists, d) {
      IssueTextInjective(c, d, v.database.fhirDataFile);
    }
  }

  /** Each check reports its issue exactly when it fails. */
  lemma IssueIff(v: ConfigValues, fileExists: string -> bool, c: Check)
    ensures IssueText(c, v.database.fhirDataFile) in ConfigIssues(v, fileExists) <==> Fails(v, fileExists, c)
  {
    InIssueIf(v, fileExists, c, GroqKey);
    InIssueIf(v, fileExists, c, LangsmithKey);
    InIssueIf(v, fileExists, c, DataFile);
    InIssueIf(v, fileExists, c, EmailUser);
    InIssueIf(v, fileExists, c, SecretKey);
  }

  /** At most one issue per check, and each exactly when its check fails. */
  lemma IssuesFollowChecks(v: ConfigValues, fileExists: string -> bool)
    ensures |ConfigIssues(v, fileExists)| <= 5
    ensures forall c :: IssueText(c, v.database.fhirDataFile) in ConfigIssues(v, fileExists) <==> Fails(v, fileExists, c)
  {
    forall c ensures IssueText(c, v.database.fhirDataFile) in ConfigIssues(v, fileExists) <==> Fails(v, fileExists, c) {
      IssueIff(v, fileExists, c);
    }
  }

  /** The list of issues is empty exactly when every check passes. */
  lemma NoIssuesIff(v: ConfigValues, fileExists: string -> bool)
    ensures ConfigIssues(v, fileExists) == [] <==>
      KeyConfigured(v.api.groqApiKey, GroqPlaceholder)
      && (v.monitoring.langsmithEnabled ==> KeyConfigured(v.api.langsmithApiKey, KeyPlaceholder))
      && fileExists(v.database.fhirDataFile)
      && (v.alerts.emailEnabled ==> v.alerts.emailUser != "")
      && !(v.environment == "production" && v.security.secretKey == DefaultSecretKey)
  {
  }

  /** Production with the default secret key always reports the default-secret issue. */
  lemma DefaultSecretInProduction(v: ConfigValues, fileExists: string -> bool)
    requires v.environment == "production" && v.security.secretKey == DefaultSecretKey
    ensures IssueText(SecretKey, v.database.fhirDataFile) in ConfigIssues(v, fileExists)
  {
    IssuesFollowChecks(v, fileExists);
  }

  /** E-mail alerts without an e-mail user always report the e-mail issue. */
  lemma EmailWithoutUser(v: ConfigValues, fileExists: string -> bool)
    requires v.alerts.emailEnabled && v.alerts.emailUser == ""
    ensures IssueText(EmailUser, v.database.fhirDataFile) in ConfigIssues(v, fileExists)
  {
    IssuesFollowChecks(v, fileExists);
  }

  /** Production forces e-mail alerts on, so without an e-mail user its
      overridden settings always report the e-mail issue. */
  lemma ProductionNeedsEmailUser(v: ConfigValues, fileExists: string -> bool)
    requires v.environment == "production" && v.alerts.emailUser == ""
    ensures IssueText(EmailUser, v.database.fhirDataFile) in ConfigIssues(Overridden(v), fileExists)
  {
    EmailWithoutUser(Overridden(v), fileExists);
  }

  /** Testing turns e-mail alerts off, so it never reports the e-mail issue. */
  lemma TestingNoEmailIssue(v: ConfigValues, fileExists: string -> bool)
    requires v.environment == "testing"
    ensures IssueText(EmailUser, TestDataFile) !in ConfigIssues(Overridden(v), fileExists)
  {
    IssuesFollowChecks(Overridden(v), fileExists);
  }

  /** Started in production without `SECRET_KEY`, the configuration reports the
      default-secret issue. */
  lemma ProductionWithoutSecretKey(env: Env, fileExists: string -> bool)
    requires SmtpPortParses(env)
    requires Getenv(env, "ENVIRONMENT", "development") == "production" && "SECRET_KEY" !in env
    ensures IssueText(SecretKey, DefaultDatabase.fhirDataFile) in ConfigIssues(Overridden(InitialValues(env)), fileExists)
  {
    DefaultSecretInProduction(Overridden(InitialValues(env)), fileExists);
  }

  // ---------------------------------------------------------------- summary

  datatype KeyStatus = KeyStatus(groq: bool, langsmith: bool, langchain: bool)

  datatype SettingsSummary = SettingsSummary(
    environment: string,
    debug: bool,
    aiModel: string,
    monitoringEnabled: bool,
    emergencyAlerts: bool,
    securityLevel: string,
    apiKeysConfigured: KeyStatus)

  /** `get_settings_summary`. */
  function Summary(v: ConfigValues): (r: SettingsSummary)
    ensures r.securityLevel == "high" <==> v.security.requirePatientVerification
    ensures r.securityLevel == "medium" <==> !v.security.requirePatientVerification
    ensures r.apiKeysConfigured.groq <==> !Fails(v, (f: string) => true, GroqKey)
    ensures r.emergencyAlerts == v.alerts.emailEnabled
  {
    SettingsSummary(
      v.environment,
      v.debug,
      v.ai.defaultModel,
      v.monitoring.langsmithEnabled,
      v.alerts.emailEnabled,
      if v.security.requirePatientVerification then "high" else "medium",
      KeyStatus(
        KeyConfigured(v.api.groqApiKey, GroqPlaceholder),
        KeyConfigured(v.api.langsmithApiKey, KeyPlaceholder),
        KeyConfigured(v.api.langchainApiKey, KeyPlaceholder)))
  }

  /** The summary's key status agrees with validation: the Groq key counts as
      configured exactly when validation has no Groq issue, and with monitoring
      on, the LangSmith key exactly when it has no LangSmith issue. */
  lemma SummaryAgreesWithValidation(v: ConfigValues, fileExists: string -> bool)
    ensures Summary(v).apiKeysConfigured.groq <==>
      IssueText(GroqKey, v.database.fhirDataFile) !in ConfigIssues(v, fileExists)
    ensures v.monitoring.langsmithEnabled ==> (Summary(v).apiKeysConfigured.langsmith <==>
      IssueText(LangsmithKey, v.database.fhirDataFile) !in ConfigIssues(v, fileExists))
  {
    IssuesFollowChecks(v, fileExists);
  }

  /** After the overrides, production is high security and development medium. */
  lemma SecurityLevelByEnvironment(v: ConfigValues)
    ensures v.environment == "production" ==> Summary(Overridden(v)).securityLevel == "high"
    ensures v.environment == "development" ==> Summary(Overridden(v)).securityLevel == "medium"
  {
  }

  /** Without `ENVIRONMENT`, the configuration is development: debug on and
      medium security. */
  lemma DefaultIsDevelopment(env: Env)
    requires SmtpPortParses(env) && "ENVIRONMENT" !in env
    ensures Summary(Overridden(InitialValues(env))).environment == "development"
    ensures Summary(Overridden(InitialValues(env))).debug
    ensures Summary(Overridden(InitialValues(env))).securityLevel == "medium"
  {
  }

  // ---------------------------------------------------------------- export

  /** A setting's value as it appears in an exported dictionary. */
  datatype Value = Text(s: string) | Flag(b: bool) | Number(n: int) | Texts(xs: seq<string>) | Tenths(t: int)

  /** A dataclass's `__dict__`: field names and values in declaration order. */
  type Fields = seq<(string, Value)>

  function Names(fs: Fields): (r: seq<string>)
    ensures |r| == |fs|
    ensures forall k :: 0 <= k < |fs| ==> r[k] == fs[k].0
  {
    Map(fs, (f: (string, Value)) => f.0)
  }

  function DatabaseFields(d: DatabaseConfig): Fields {
    [("fhir_data_file", Text(d.fhirDataFile)), ("alert_history_file", Text(d.alertHistoryFile)),
     ("backup_enabled", Flag(d.backupEnabled)), ("backup_interval_hours", Number(d.backupIntervalHours))]
  }

  function AiFields(a: AiConfig): Fields {
    [("default_model", Text(a.defaultModel)), ("temperature", Tenths(a.temperatureTenths)),
     ("max_tokens", Number(a.maxTokens)), ("fallback_model", Text(a.fallbackModel)),
     ("api_timeout", Number(a.apiTimeout))]
  }

  function EmergencyFields(e: EmergencyConfig): Fields {
    [("urgency_threshold", Number(e.urgencyThreshold)), ("auto_alert_enabled", Flag(e.autoAlertEnabled)),
     ("emergency_keywords", Texts(e.emergencyKeywords)), ("max_response_time", Number(e.maxResponseTime))]
  }

  function SecurityFields(s: SecurityConfig): Fields {
    [("session_timeout_hours", Number(s.sessionTimeoutHours)), ("max_login_attempts", Number(s.maxLoginAttempts)),
     ("require_patient_verification", Flag(s.requirePatientVerification)),
     ("log_all_access", Flag(s.logAllAccess)), ("encrypt_sensitive_data", Flag(s.encryptSensitiveData)),
     ("secret_key", Text(s.secretKey))]
  }

  function MonitoringFields(m: MonitoringConfig): Fields {
    [("langsmith_enabled", Flag(m.langsmithEnabled)), ("trace_all_interactions", Flag(m.traceAllInteractions)),
     ("performance_monitoring", Flag(m.performanceMonitoring)), ("error_alerting", Flag(m.errorAlerting)),
     ("analytics_retention_days", Number(m.analyticsRetentionDays))]
  }

  function UiFields(u: UiConfig): Fields {
    [("app_title", Text(u.appTitle)), ("app_icon", Text(u.appIcon)),
     ("max_message_history", Number(u.maxMessageHistory)), ("auto_scroll", Flag(u.autoScroll)),
     ("show_timestamps", Flag(u.showTimestamps)), ("theme", Text(u.theme))]
  }

  function AlertFields(a: AlertConfig): Fields {
    [("email_enabled", Flag(a.emailEnabled)), ("smtp_server", Text(a.smtpServer)),
     ("smtp_port", Number(a.smtpPort)), ("email_user", Text(a.emailUser)),
     ("email_password", Text(a.emailPassword)), ("alert_recipients", Texts(a.alertRecipients))]
  }

  /** The dictionary `export_config` returns; there is no `api` entry. */
  datatype Exported = Exported(
    database: Fields,
    ai: Fields,
    emergency: Fields,
    security: Fields,
    monitoring: Fields,
    ui: Fields,
    alerts: Fields,
    environment: string,
    debug: bool)

  /** `{k: v for k, v in fs.items() if k != key}`. */
  function WithoutKey(fs: Fields, key: string): (r: Fields)
    ensures key !in Names(r)
    ensures forall f :: f in fs && f.0 != key ==> f in r
    ensures forall f :: f in r ==> f in fs
  {
    var r := Filter(fs, (f: (string, Value)) => f.0 != key);
    assert forall k :: 0 <= k < |r| ==> r[k] in r;
    r
  }

  /** `{k: v for k, v in fs.items() if word not in k}`. */
  function WithoutKeysContaining(fs: Fields, word: string): (r: Fields)
    ensures forall k :: 0 <= k < |r| ==> !Contains(r[k].0, word)
    ensures forall f :: f in fs && !Contains(f.0, word) ==> f in r
    ensures forall f :: f in r ==> f in fs
  {
    var r := Filter(fs, (f: (string, Value)) => !Contains(f.0, word));
    assert forall k :: 0 <= k < |r| ==> r[k] in r;
    r
  }

  /** `export_config`: the security section without `secret_key`, and the alert
      section without any field whose name contains "password". */
  function Export(v: ConfigValues): (r: Exported)
    ensures "secret_key" !in Names(r.security)
    ensures forall k :: 0 <= k < |r.alerts| ==> !Contains(r.alerts[k].0, "password")
  {
    Exported(
      DatabaseFields(v.database),
      AiFields(v.ai),
      EmergencyFields(v.emergency),
      WithoutKey(SecurityFields(v.security), "secret_key"),
      MonitoringFields(v.monitoring),
      UiFields(v.ui),
      WithoutKeysContaining(AlertFields(v.alerts), "password"),
      v.environment,
      v.debug)
  }

  /** The export still carries the patient-verification setting and the alert
      recipients. */
  lemma ExportKeepsSettings(v: ConfigValues)
    ensures ("require_patient_verification", Flag(v.security.requirePatientVerification)) in Export(v).security
    ensures ("alert_recipients", Texts(v.alerts.alertRecipients)) in Export(v).alerts
  {
    NotContainsMissingChar("alert_recipients", "password", 4);
    assert ("alert_recipients", Texts(v.alerts.alertRecipients)) in AlertFields(v.alerts);
    assert ("require_patient_verification", Flag(v.security.requirePatientVerification)) in SecurityFields(v.security);
  }

  // ---------------------------------------------------------------- the configuration object

  /** `MedicalAIConfig`: the settings groups, the environment name and the
      debug flag. */
  class MedicalAIConfig {
    var database: DatabaseConfig
    var ai: AiConfig
    var emergency: EmergencyConfig
    var security: SecurityConfig
    var monitoring: MonitoringConfig
    var ui: UiConfig
    var api: ApiConfig
    var alerts: AlertConfig
    var environment: string
    var debug: bool

    function Values(): ConfigValues
      reads this
    {
      ConfigValues(database, ai, emergency, security, monitoring, ui, api, alerts, environment, debug)
    }

    /** `__init__`: the defaults and the environment's settings, then the
        environment overrides. */
    constructor(env: Env)
      requires SmtpPortParses(env)
      ensures Values() == Overridden(InitialValues(env))
    {
      var v := InitialValues(env);
      database := v.database;
      ai := v.ai;
      emergency := v.emergency;
      security := v.security;
      monitoring := v.monitoring;
      ui := v.ui;
      api := v.api;
      alerts := v.alerts;
      environment := v.environment;
      debug := v.debug;
      new;
      assert Values() == v;
      ApplyEnvironmentSettings();
    }

    /** `_apply_environment_settings`. */
    method ApplyEnvironmentSettings()
      modifies this
      ensures Values() == Overridden(old(Values()))
    {
      if environment == "production" {
        ai := ai.(temperatureTenths := 0);
        security := security.(requirePatientVerification := true);
        security := security.(logAllAccess := true);
        monitoring := monitoring.(traceAllInteractions := true);
        alerts := alerts.(emailEnabled := true);
      } else if environment == "development" {
        ai := ai.(temperatureTenths := 1);
        security := security.(requirePatientVerification := false);
        debug := true;
      } else if environment == "testing" {
        database := database.(fhirDataFile := TestDataFile);
        alerts := alerts.(emailEnabled := false);
        api := api.(rateLimitPerMinute := 1000);
      }
    }

    /** `validate_config`: one issue per failed check, in order. */
    method ValidateConfig(fileExists: string -> bool) returns (issues: seq<string>)
      ensures issues == ConfigIssues(Values(), fileExists)
    {
      ghost var v := Values();
      issues := [];
      if api.groqApiKey == "" || api.groqApiKey == GroqPlaceholder {
        issues := issues + [GroqIssue];
      }
      assert issues == IssueIf(v, fileExists, GroqKey);
      ghost var upTo := issues;
      if monitoring.langsmithEnabled && (api.langsmithApiKey == "" || api.langsmithApiKey == KeyPlaceholder) {
        issues := issues + [LangsmithIssue];
      }
      assert issues == upTo + IssueIf(v, fileExists, LangsmithKey);
      upTo := issues;
      if !fileExists(database.fhirDataFile) {
        issues := issues + [DataFileIssue + database.fhirDataFile];
      }
      assert issues == upTo + IssueIf(v, fileExists, DataFile);
      upTo := issues;
      if alerts.emailEnabled && alerts.emailUser == "" {
        issues := issues + [EmailIssue];
      }
      assert issues == upTo + IssueIf(v, fileExists, EmailUser);
      upTo := issues;
      if environment == "production" && security.secretKey == DefaultSecretKey {
        issues := issues + [SecretIssue];
      }
      assert issues == upTo + IssueIf(v, fileExists, SecretKey);
    }

    /** `get_settings_summary`. */
    function GetSettingsSummary(): SettingsSummary
      reads this
    {
      Summary(Values())
    }

    /** `export_config`. */
    function ExportConfig(): Exported
      reads this
    {
      Export(Values())
    }
  }

  /** `validate_configuration`: true exactly when there are no issues. The
      printed list of issues is not modelled. */
  method ValidateConfiguration(config: MedicalAIConfig, fileExists: string -> bool) returns (ok: bool)
    ensures ok <==> ConfigIssues(config.Values(), fileExists) == []
  {
    var issues := config.ValidateConfig(fileExists);
    ok := issues == [];
  }
}
