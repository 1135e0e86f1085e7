/** Which files the deploy script refuses, and why, and what it writes, setting by setting. The
    settings are named as in the file, and words, numbers and lists are meant, not spellings. */
module EnvSettings {
  import opened Wrappers
  import opened PyText
  import opened Words
  import opened Decimals
  import opened ListSettings
  import opened EnvFile
  import opened EnvRules

  /** What a file says under a name; nothing is the same as an empty value. */
  function At(v: Values, name: string): string {
    if KeyOf(name) in v then v[KeyOf(name)] else ""
  }

  function AtOr(v: Values, name: string, default: string): string {
    if KeyOf(name) in v then v[KeyOf(name)] else default
  }

  const TEXTS: seq<string> :=
    ["APP_NAME", "APP_VERSION", "ENVIRONMENT", "LOG_LEVEL", "LOG_JSON", "DATABASE_URL", "APP_BASE_URL",
     "CORS_ALLOWED_ORIGINS", "TRUSTED_HOSTS", "JWT_ALGORITHM"]

  const SWITCHES: seq<string> := ["SMTP_USE_TLS", "SMTP_USE_AUTH"]

  const NUMBERS: seq<string> :=
    ["HEALTHCHECK_TIMEOUT_SECONDS", "APPROVAL_TOKEN_TTL_MINUTES", "JWT_EXPIRATION_MINUTES", "SMTP_PORT",
     "SMTP_TIMEOUT_SECONDS"]

  const LISTS: seq<string> := ["CORS_ALLOWED_ORIGINS", "TRUSTED_HOSTS"]

  const SECRETS: seq<(string, string, string)> :=
    [("APPROVAL_TOKEN_SECRET", "APPROVAL_TOKEN_SECRET_FILE", "Approval token secret"),
     ("JWT_SECRET", "JWT_SECRET_FILE", "JWT secret"),
     ("CUSTOMER_JWT_SECRET", "CUSTOMER_JWT_SECRET_FILE", "Customer JWT secret")]

  predicate SpellsBoolean(s: string) {
    Spells(s, "true") || Spells(s, "false")
  }

  predicate SpellsEnvironment(s: string) {
    Spells(s, "development") || Spells(s, "test") || Spells(s, "staging") || Spells(s, "production")
  }

  function BadNumber(h: Host, v: Values, name: string): Option<EnvError> {
    if At(v, name) == "" then None
    else
      match ReadInt(h, At(v, name))
      case None => Some(NotInteger(KeyOf(name)))
      case Some(n) => if n > 0 then None else Some(NotPositive(KeyOf(name)))
  }

  function BadDatabase(h: Host, v: Values): Option<EnvError> {
    var url := At(v, "DATABASE_URL");
    if !("postgresql://" <= url || "postgresql+asyncpg://" <= url) then Some(WrongDatabaseScheme)
    else if h.databaseOk(url, AtOr(v, "EXPECTED_DATABASE_NAME", "billing_service_db"),
                         AtOr(v, "EXPECTED_DATABASE_USERNAME", "billing_service_user")) then None
    else Some(WrongDatabase)
  }

  function BadBaseUrl(h: Host, v: Values): Option<EnvError> {
    if h.baseUrlOk(At(v, "APP_BASE_URL")) then None else Some(WrongBaseUrl)
  }

  function BadList(h: Host, v: Values, name: string): Option<EnvError> {
    match ParseCsvOrJsonList(h.show, At(v, name))
    case Err(problem) => Some(WrongList(KeyOf(name), problem))
    case Ok(items) => if items == [] then Some(WrongList(KeyOf(name), NoItems)) else None
  }

  function BadSecret(v: Values, secret: (string, string, string)): Option<EnvError> {
    if At(v, secret.0) == "" && At(v, secret.1) == ""
    then Some(NoneOf([KeyOf(secret.0), KeyOf(secret.1)], secret.2)) else None
  }

  /** What can be wrong with a file, in the order in which it is looked for. */
  function Complaint(h: Host, v: Values, i: nat): Option<EnvError>
    requires i < 28
  {
    if i < 10 then (if At(v, TEXTS[i]) == "" then Some(Required(KeyOf(TEXTS[i]))) else None)
    else if i == 10 then (if SpellsEnvironment(At(v, "ENVIRONMENT")) then None else Some(UnknownEnvironment))
    else if i == 11 then
      var provider := Upper(h, At(v, "EMAIL_PROVIDER"));
      (if provider == "" || provider == "SMTP" || provider == "NOOP" then None else Some(UnknownProvider))
    else if i == 12 then (if SpellsBoolean(At(v, "LOG_JSON")) then None else Some(NotBoolean(KeyOf("LOG_JSON"))))
    else if i < 15 then
      var name := SWITCHES[i - 13];
      (if At(v, name) == "" || SpellsBoolean(At(v, name)) then None else Some(NotBoolean(KeyOf(name))))
    else if i < 20 then BadNumber(h, v, NUMBERS[i - 15])
    else if i == 20 then BadDatabase(h, v)
    else if i == 21 then BadBaseUrl(h, v)
    else if i < 24 then BadList(h, v, LISTS[i - 22])
    else if i < 27 then BadSecret(v, SECRETS[i - 24])
    else None
  }

  // ----- The names are those of the keys -----

  lemma Named(k: Key, name: string)
    requires !k.OtherKey? && KeyName(k) == name
    ensures KeyOf(name) == k
  {
    KnownNamesRoundTrip(k);
  }

  lemma TextsAreNamed(i: nat)
    requires i < 10
    ensures |REQUIRED_TEXT_FIELDS| == 10 && KeyOf(TEXTS[i]) == REQUIRED_TEXT_FIELDS[i]
  {
    hide KeyOf;
    KnownNamesRoundTrip(REQUIRED_TEXT_FIELDS[i]);
    TextName(i);
  }

  lemma TextName(i: nat)
    requires i < 10
    ensures KeyName(REQUIRED_TEXT_FIELDS[i]) == TEXTS[i]
  {
  }

  lemma SettingsAreNamed()
    ensures KeyOf("ENVIRONMENT") == Environment && KeyOf("EMAIL_PROVIDER") == EmailProvider
    ensures KeyOf("LOG_JSON") == LogJson && KeyOf("LOG_LEVEL") == LogLevel
    ensures KeyOf("SMTP_USE_TLS") == SmtpUseTls && KeyOf("SMTP_USE_AUTH") == SmtpUseAuth
  {
    hide KeyOf;
    Named(Environment, "ENVIRONMENT");
    Named(EmailProvider, "EMAIL_PROVIDER");
    Named(LogJson, "LOG_JSON");
    Named(LogLevel, "LOG_LEVEL");
    Named(SmtpUseTls, "SMTP_USE_TLS");
    Named(SmtpUseAuth, "SMTP_USE_AUTH");
  }

  lemma NumberKeyNames()
    ensures KeyName(HealthcheckTimeoutSeconds) == "HEALTHCHECK_TIMEOUT_SECONDS"
    ensures KeyName(ApprovalTokenTtlMinutes) == "APPROVAL_TOKEN_TTL_MINUTES"
    ensures KeyName(JwtExpirationMinutes) == "JWT_EXPIRATION_MINUTES"
    ensures KeyName(SmtpPort) == "SMTP_PORT" && KeyName(SmtpTimeoutSeconds) == "SMTP_TIMEOUT_SECONDS"
  {
  }

  lemma NumbersAreNamed()
    ensures KeyOf("HEALTHCHECK_TIMEOUT_SECONDS") == HealthcheckTimeoutSeconds
    ensures KeyOf("APPROVAL_TOKEN_TTL_MINUTES") == ApprovalTokenTtlMinutes
    ensures KeyOf("JWT_EXPIRATION_MINUTES") == JwtExpirationMinutes
    ensures KeyOf("SMTP_PORT") == SmtpPort && KeyOf("SMTP_TIMEOUT_SECONDS") == SmtpTimeoutSeconds
  {
    hide KeyOf, KeyName;
    NumberKeyNames();
    KnownNamesRoundTrip(HealthcheckTimeoutSeconds);
    KnownNamesRoundTrip(ApprovalTokenTtlMinutes);
    KnownNamesRoundTrip(JwtExpirationMinutes);
    KnownNamesRoundTrip(SmtpPort);
    KnownNamesRoundTrip(SmtpTimeoutSeconds);
  }

  lemma UrlNames()
    ensures KeyName(DatabaseUrl) == "DATABASE_URL" && KeyName(AppBaseUrl) == "APP_BASE_URL"
    ensures KeyName(ExpectedDatabaseName) == "EXPECTED_DATABASE_NAME"
    ensures KeyName(ExpectedDatabaseUsername) == "EXPECTED_DATABASE_USERNAME"
    ensures KeyName(CorsAllowedOrigins) == "CORS_ALLOWED_ORIGINS" && KeyName(TrustedHosts) == "TRUSTED_HOSTS"
  {
  }

  lemma UrlsAreNamed()
    ensures KeyOf("DATABASE_URL") == DatabaseUrl && KeyOf("APP_BASE_URL") == AppBaseUrl
    ensures KeyOf("EXPECTED_DATABASE_NAME") == ExpectedDatabaseName
    ensures KeyOf("EXPECTED_DATABASE_USERNAME") == ExpectedDatabaseUsername
    ensures KeyOf("CORS_ALLOWED_ORIGINS") == CorsAllowedOrigins && KeyOf("TRUSTED_HOSTS") == TrustedHosts
  {
    hide KeyOf, KeyName;
    UrlNames();
    KnownNamesRoundTrip(DatabaseUrl);
    KnownNamesRoundTrip(AppBaseUrl);
    KnownNamesRoundTrip(ExpectedDatabaseName);
    KnownNamesRoundTrip(ExpectedDatabaseUsername);
    KnownNamesRoundTrip(CorsAllowedOrigins);
    KnownNamesRoundTrip(TrustedHosts);
  }

  lemma SecretNames()
    ensures KeyName(ApprovalTokenSecret) == "APPROVAL_TOKEN_SECRET"
    ensures KeyName(ApprovalTokenSecretFile) == "APPROVAL_TOKEN_SECRET_FILE"
    ensures KeyName(JwtSecret) == "JWT_SECRET" && KeyName(JwtSecretFile) == "JWT_SECRET_FILE"
    ensures KeyName(CustomerJwtSecret) == "CUSTOMER_JWT_SECRET"
    ensures KeyName(CustomerJwtSecretFile) == "CUSTOMER_JWT_SECRET_FILE"
  {
  }

  lemma SecretsAreNamed()
    ensures KeyOf("APPROVAL_TOKEN_SECRET") == ApprovalTokenSecret
    ensures KeyOf("APPROVAL_TOKEN_SECRET_FILE") == ApprovalTokenSecretFile
    ensures KeyOf("JWT_SECRET") == JwtSecret && KeyOf("JWT_SECRET_FILE") == JwtSecretFile
    ensures KeyOf("CUSTOMER_JWT_SECRET") == CustomerJwtSecret
    ensures KeyOf("CUSTOMER_JWT_SECRET_FILE") == CustomerJwtSecretFile
  {
    hide KeyOf, KeyName;
    SecretNames();
    KnownNamesRoundTrip(ApprovalTokenSecret);
    KnownNamesRoundTrip(ApprovalTokenSecretFile);
    KnownNamesRoundTrip(JwtSecret);
    KnownNamesRoundTrip(JwtSecretFile);
    KnownNamesRoundTrip(CustomerJwtSecret);
    KnownNamesRoundTrip(CustomerJwtSecretFile);
  }

  // ----- Each complaint is a rule's verdict -----

  function ErrorOf(r: Result<Option<string>, EnvError>): Option<EnvError> {
    if r.Err? then Some(r.error) else None
  }

  lemma CleanIsStated(v: Values, name: string)
    requires CleanValues(v)
    ensures Stated(v, KeyOf(name)) == At(v, name)
    ensures Strip(At(v, name)) == At(v, name)
  {
    if KeyOf(name) in v { assert CleanValue(v[KeyOf(name)]); }
    StripOfStripped(IsSpace, At(v, name));
  }

  lemma BooleansSpelled(s: string)
    ensures IsBoolean(Lower(s)) <==> SpellsBoolean(s)
    ensures Lower(s) == "true" ==> Spells(s, "true")
    ensures Lower(s) == "false" ==> Spells(s, "false")
  {
    LowerSpells(s, "true");
    LowerSpells(s, "false");
    hide Lower, Spells;
  }

  lemma EnvironmentsSpelled(s: string)
    ensures IsEnvironment(Lower(s)) <==> SpellsEnvironment(s)
    ensures IsEnvironment(Lower(s)) ==> Spells(s, Lower(s))
  {
    LowerSpells(s, "development");
    LowerSpells(s, "test");
    LowerSpells(s, "staging");
    LowerSpells(s, "production");
    hide Lower, Spells;
  }

  lemma TextComplaint(h: Host, v: Values, i: nat)
    requires CleanValues(v) && i < 10
    ensures ErrorOf(Verdict(h, PLAN[i], v)) == Complaint(h, v, i)
  {
    TextsAreNamed(i);
    CleanIsStated(v, TEXTS[i]);
    TextsComeFirst(i);
    hide CleanValues, KeyOf, Stated, At;
  }

  lemma PlanLength()
    ensures |PLAN| == 28
  {
  }

  lemma PlanChoices()
    ensures |PLAN| == 28 && PLAN[10] == KnownEnvironment && PLAN[11] == KnownProvider && PLAN[27] == UppercaseLevel
  {
  }

  lemma PlanSwitches()
    ensures |PLAN| == 28 && PLAN[12] == BooleanField(LogJson)
    ensures PLAN[13] == OptionalBoolean(SmtpUseTls, "false") && PLAN[14] == OptionalBoolean(SmtpUseAuth, "false")
  {
  }

  lemma PlanNumbers()
    ensures |PLAN| == 28
    ensures PLAN[15] == PositiveInteger(HealthcheckTimeoutSeconds)
    ensures PLAN[16] == PositiveInteger(ApprovalTokenTtlMinutes) && PLAN[17] == PositiveInteger(JwtExpirationMinutes)
    ensures PLAN[18] == OptionalInteger(SmtpPort, "587") && PLAN[19] == OptionalInteger(SmtpTimeoutSeconds, "10")
  {
  }

  lemma PlanUrls()
    ensures |PLAN| == 28 && PLAN[20] == ValidDatabaseUrl && PLAN[21] == ValidBaseUrl
    ensures PLAN[22] == ListField(CorsAllowedOrigins) && PLAN[23] == ListField(TrustedHosts)
  {
  }

  lemma PlanSecrets()
    ensures |PLAN| == 28
    ensures PLAN[24] == APPROVAL_SECRET && PLAN[25] == JWT_SECRET && PLAN[26] == CUSTOMER_SECRET
  {
  }

  lemma EnvironmentComplaint(h: Host, v: Values)
    requires CleanValues(v) && At(v, "ENVIRONMENT") != ""
    ensures ErrorOf(Verdict(h, KnownEnvironment, v)) == Complaint(h, v, 10)
  {
    SettingsAreNamed();
    CleanIsStated(v, "ENVIRONMENT");
    EnvironmentsSpelled(At(v, "ENVIRONMENT"));
    hide CleanValues, KeyOf, Stated, Lower, SpellsEnvironment, IsEnvironment, At;
  }

  lemma ProviderStated(h: Host, v: Values)
    requires Sound(h) && CleanValues(v)
    ensures var provider := Upper(h, At(v, "EMAIL_PROVIDER"));
            ProviderOf(h, v) == if provider == "" then "SMTP" else provider
  {
    SettingsAreNamed();
    CleanIsStated(v, "EMAIL_PROVIDER");
    ProvidersAreNormal(h, "SMTP");
    assert Upper(h, "") == "";
    hide CleanValues, KeyOf, Upper, Strip, Sound;
  }

  lemma ProviderComplaint(h: Host, v: Values)
    requires Sound(h) && CleanValues(v)
    ensures ErrorOf(Verdict(h, KnownProvider, v)) == Complaint(h, v, 11)
  {
    ProviderStated(h, v);
    hide CleanValues, KeyOf, Upper, At, ProviderOf, Sound;
  }

  lemma SwitchComplaint(h: Host, v: Values, name: string, r: Rule)
    requires CleanValues(v)
    requires (r == BooleanField(KeyOf(name)) && At(v, name) != "") || r == OptionalBoolean(KeyOf(name), "false")
    ensures ErrorOf(Verdict(h, r, v)) ==
            if At(v, name) == "" || SpellsBoolean(At(v, name)) then None else Some(NotBoolean(KeyOf(name)))
  {
    CleanIsStated(v, name);
    BooleansSpelled(At(v, name));
    hide CleanValues, KeyOf, Stated, Lower, SpellsBoolean, IsBoolean, At;
  }

  lemma NumberComplaint(h: Host, v: Values, name: string, r: Rule)
    requires CleanValues(v)
    requires r == PositiveInteger(KeyOf(name)) || (r.OptionalInteger? && r.key == KeyOf(name))
    ensures ErrorOf(Verdict(h, r, v)) == BadNumber(h, v, name)
  {
    CleanIsStated(v, name);
    hide CleanValues, KeyOf, Stated, ReadInt, At;
  }

  lemma DatabaseStated(v: Values)
    requires CleanValues(v)
    ensures Stated(v, DatabaseUrl) == At(v, "DATABASE_URL") && Stated(v, AppBaseUrl) == At(v, "APP_BASE_URL")
    ensures Lookup(v, ExpectedDatabaseName, "billing_service_db")
            == AtOr(v, "EXPECTED_DATABASE_NAME", "billing_service_db")
    ensures Lookup(v, ExpectedDatabaseUsername, "billing_service_user")
            == AtOr(v, "EXPECTED_DATABASE_USERNAME", "billing_service_user")
  {
    UrlsAreNamed();
    CleanIsStated(v, "DATABASE_URL");
    CleanIsStated(v, "APP_BASE_URL");
    hide CleanValues, KeyOf, Stated, At;
  }

  lemma BaseUrlOutcome(h: Host, v: Values, url: string)
    requires Stated(v, AppBaseUrl) == url != ""
    ensures ErrorOf(Verdict(h, ValidBaseUrl, v)) == if h.baseUrlOk(url) then None else Some(WrongBaseUrl)
  {
    hide Stated;
  }

  lemma DatabaseOutcome(h: Host, v: Values, url: string, name: string, user: string)
    requires Stated(v, DatabaseUrl) == url != ""
    requires Lookup(v, ExpectedDatabaseName, "billing_service_db") == name
    requires Lookup(v, ExpectedDatabaseUsername, "billing_service_user") == user
    ensures ErrorOf(Verdict(h, ValidDatabaseUrl, v)) ==
            if !("postgresql://" <= url || "postgresql+asyncpg://" <= url) then Some(WrongDatabaseScheme)
            else if h.databaseOk(url, name, user) then None
            else Some(WrongDatabase)
  {
    hide Stated, Lookup;
  }

  lemma DatabaseComplaint(h: Host, v: Values)
    requires CleanValues(v) && At(v, "DATABASE_URL") != ""
    ensures ErrorOf(Verdict(h, ValidDatabaseUrl, v)) == BadDatabase(h, v)
  {
    DatabaseStated(v);
    DatabaseOutcome(h, v, At(v, "DATABASE_URL"), AtOr(v, "EXPECTED_DATABASE_NAME", "billing_service_db"),
                    AtOr(v, "EXPECTED_DATABASE_USERNAME", "billing_service_user"));
    hide CleanValues, KeyOf, Stated, At, AtOr, Lookup, Verdict, ErrorOf;
  }

  lemma BaseUrlComplaint(h: Host, v: Values)
    requires CleanValues(v) && At(v, "APP_BASE_URL") != ""
    ensures ErrorOf(Verdict(h, ValidBaseUrl, v)) == BadBaseUrl(h, v)
  {
    DatabaseStated(v);
    BaseUrlOutcome(h, v, At(v, "APP_BASE_URL"));
    hide CleanValues, KeyOf, Stated, At, AtOr, Lookup, Verdict, ErrorOf;
  }

  lemma ListVerdictIs(h: Host, v: Values, k: Key)
    ensures Verdict(h, ListField(k), v) ==
            match NormalizedList(h.show, Stated(v, k))
            case Ok(text) => Ok(Some(text))
            case Err(Empty) => Err(Required(k))
            case Err(problem) => Err(WrongList(k, problem))
  {
    hide NormalizedList, Stated;
  }

  lemma ListComplaint(h: Host, v: Values, name: string)
    requires CleanValues(v) && At(v, name) != ""
    ensures ErrorOf(Verdict(h, ListField(KeyOf(name)), v)) == BadList(h, v, name)
  {
    CleanIsStated(v, name);
    ListOutcome(h, At(v, name));
    ListVerdictIs(h, v, KeyOf(name));
    hide CleanValues, KeyOf, Stated, At, NormalizedList, ParseCsvOrJsonList, Verdict;
  }

  lemma ListOutcome(h: Host, raw: string)
    requires Strip(raw) == raw != ""
    ensures match ParseCsvOrJsonList(h.show, raw)
            case Err(e) => NormalizedList(h.show, raw) == Err(e) && e != Empty
            case Ok(items) =>
              if items == [] then NormalizedList(h.show, raw) == Err(NoItems)
              else NormalizedList(h.show, raw).Ok?
  {
  }

  lemma SecretOutcome(h: Host, v: Values, keys: seq<Key>, what: string)
    requires |keys| == 2
    ensures ErrorOf(Verdict(h, AnyOf(keys, what), v)) ==
            if Stated(v, keys[0]) == "" && Stated(v, keys[1]) == "" then Some(NoneOf(keys, what)) else None
  {
    hide Stated;
    assert keys[0] in keys && keys[1] in keys && forall k :: k in keys ==> k == keys[0] || k == keys[1];
  }

  lemma SecretComplaint(h: Host, v: Values, secret: (string, string, string), keys: seq<Key>)
    requires CleanValues(v) && keys == [KeyOf(secret.0), KeyOf(secret.1)]
    ensures ErrorOf(Verdict(h, AnyOf(keys, secret.2), v)) == BadSecret(v, secret)
  {
    CleanIsStated(v, secret.0);
    CleanIsStated(v, secret.1);
    SecretOutcome(h, v, keys, secret.2);
    hide CleanValues, KeyOf, Stated, At, Verdict, ErrorOf;
  }

  predicate TextsAreGiven(v: Values) {
    forall j :: 0 <= j < 10 ==> At(v, TEXTS[j]) != ""
  }

  /** Without an earlier complaint about the required texts, a rule refuses the original
      values for just the reason listed. */
  lemma VerdictIsComplaint(h: Host, v: Values, i: nat)
    requires Sound(h) && CleanValues(v) && i < |PLAN| == 28 && (i >= 10 ==> TextsAreGiven(v))
    ensures ErrorOf(Verdict(h, PLAN[i], v)) == Complaint(h, v, i)
  {
    hide Verdict, PLAN, CleanValues, Sound, TextsAreGiven, Complaint, ErrorOf;
    if i < 10 {
      TextComplaint(h, v, i);
    } else if i < 12 {
      ChoiceComplaints(h, v, i);
    } else if i < 15 {
      SwitchComplaints(h, v, i);
    } else if i < 20 {
      NumberComplaints(h, v, i);
    } else if i < 22 {
      UrlComplaints(h, v, i);
    } else if i < 24 {
      ListComplaints(h, v, i);
    } else if i < 27 {
      SecretComplaints(h, v, i);
    } else {
      LevelComplaint(h, v);
    }
  }

  lemma ChoiceComplaints(h: Host, v: Values, i: nat)
    requires Sound(h) && CleanValues(v) && 10 <= i < 12 && |PLAN| == 28 && TextsAreGiven(v)
    ensures ErrorOf(Verdict(h, PLAN[i], v)) == Complaint(h, v, i)
  {
    hide Verdict, PLAN, KeyOf, At, CleanValues, Sound, Complaint, TextsAreGiven;
    PlanChoices();
    ChoiceGiven(v);
    if i == 10 { EnvironmentComplaint(h, v); } else { ProviderComplaint(h, v); }
  }

  lemma UrlComplaints(h: Host, v: Values, i: nat)
    requires CleanValues(v) && 20 <= i < 22 && |PLAN| == 28 && TextsAreGiven(v)
    ensures ErrorOf(Verdict(h, PLAN[i], v)) == Complaint(h, v, i)
  {
    hide Verdict, PLAN, KeyOf, At, CleanValues, BadDatabase, BadBaseUrl, TextsAreGiven;
    PlanUrls();
    UrlsGiven(v);
    if i == 20 { DatabaseComplaint(h, v); } else { BaseUrlComplaint(h, v); }
  }

  lemma TextsGiven(v: Values)
    requires TextsAreGiven(v)
    ensures At(v, "ENVIRONMENT") != "" && At(v, "LOG_LEVEL") != "" && At(v, "LOG_JSON") != ""
    ensures At(v, "DATABASE_URL") != "" && At(v, "APP_BASE_URL") != ""
    ensures At(v, "CORS_ALLOWED_ORIGINS") != "" && At(v, "TRUSTED_HOSTS") != ""
  {
    hide At;
    assert At(v, TEXTS[2]) != "" && At(v, TEXTS[3]) != "" && At(v, TEXTS[4]) != "" && At(v, TEXTS[5]) != "";
    assert At(v, TEXTS[6]) != "" && At(v, TEXTS[7]) != "" && At(v, TEXTS[8]) != "";
  }

  lemma ChoiceGiven(v: Values)
    requires TextsAreGiven(v)
    ensures At(v, "ENVIRONMENT") != ""
  {
    hide At, TextsAreGiven;
    TextsGiven(v);
  }

  lemma SwitchGiven(v: Values)
    requires TextsAreGiven(v)
    ensures At(v, "LOG_JSON") != ""
  {
    hide At, TextsAreGiven;
    TextsGiven(v);
  }

  lemma UrlsGiven(v: Values)
    requires TextsAreGiven(v)
    ensures At(v, "DATABASE_URL") != "" && At(v, "APP_BASE_URL") != ""
  {
    hide At, TextsAreGiven;
    TextsGiven(v);
  }

  lemma ListsGiven(v: Values, name: string)
    requires TextsAreGiven(v) && name in LISTS
    ensures At(v, name) != ""
  {
    hide At, TextsAreGiven;
    TextsGiven(v);
  }

  lemma LevelGiven(v: Values)
    requires TextsAreGiven(v)
    ensures At(v, "LOG_LEVEL") != ""
  {
    hide At, TextsAreGiven;
    TextsGiven(v);
  }

  lemma SwitchComplaints(h: Host, v: Values, i: nat)
    requires CleanValues(v) && 12 <= i < 15 && |PLAN| == 28 && TextsAreGiven(v)
    ensures ErrorOf(Verdict(h, PLAN[i], v)) == Complaint(h, v, i)
  {
    hide Verdict, PLAN, KeyOf, At, CleanValues, SpellsBoolean, TextsAreGiven;
    PlanSwitches();
    SwitchGiven(v);
    SettingsAreNamed();
    if i == 12 {
      SwitchComplaint(h, v, "LOG_JSON", PLAN[12]);
    } else {
      SwitchComplaint(h, v, SWITCHES[i - 13], PLAN[i]);
    }
  }

  lemma NumberComplaints(h: Host, v: Values, i: nat)
    requires CleanValues(v) && 15 <= i < 20 && |PLAN| == 28
    ensures ErrorOf(Verdict(h, PLAN[i], v)) == Complaint(h, v, i)
  {
    hide Verdict, PLAN, KeyOf, At, CleanValues, BadNumber;
    PlanNumbers();
    NumbersAreNamed();
    NumberComplaint(h, v, NUMBERS[i - 15], PLAN[i]);
  }

  lemma ListComplaints(h: Host, v: Values, i: nat)
    requires CleanValues(v) && 22 <= i < 24 && |PLAN| == 28 && TextsAreGiven(v)
    ensures ErrorOf(Verdict(h, PLAN[i], v)) == Complaint(h, v, i)
  {
    hide Verdict, PLAN, KeyOf, At, CleanValues, BadList, TextsAreGiven;
    PlanUrls();
    ListsGiven(v, LISTS[i - 22]);
    UrlsAreNamed();
    ListComplaint(h, v, LISTS[i - 22]);
  }

  lemma SecretComplaints(h: Host, v: Values, i: nat)
    requires CleanValues(v) && 24 <= i < 27 && |PLAN| == 28
    ensures ErrorOf(Verdict(h, PLAN[i], v)) == Complaint(h, v, i)
  {
    hide Verdict, PLAN, KeyOf, At, CleanValues, BadSecret;
    PlanSecrets();
    SecretsAreNamed();
    var secret := SECRETS[i - 24];
    SecretComplaint(h, v, secret, PLAN[i].keys);
  }

  lemma LevelComplaint(h: Host, v: Values)
    requires TextsAreGiven(v) && |PLAN| == 28
    ensures ErrorOf(Verdict(h, PLAN[27], v)) == Complaint(h, v, 27)
  {
    hide KeyOf, Upper, PLAN, TextsAreGiven;
    PlanChoices();
    LevelGiven(v);
    SettingsAreNamed();
  }

  predicate FirstComplaint(h: Host, v: Values, n: nat, e: EnvError)
    requires n <= 28
  {
    exists i :: 0 <= i < n && Complaint(h, v, i) == Some(e) && NoComplaint(h, v, i)
  }

  predicate NoComplaint(h: Host, v: Values, n: nat)
    requires n <= 28
  {
    forall i :: 0 <= i < n ==> Complaint(h, v, i) == None
  }

  lemma {:induction false} ComplaintsUpTo(h: Host, v: Values, n: nat)
    requires Sound(h) && CleanValues(v) && n <= |PLAN| == 28
    ensures var problem := FirstProblem(h, n, v);
            if problem.None? then NoComplaint(h, v, n) else FirstComplaint(h, v, n, problem.value)
  {
    hide Verdict, Complaint, PLAN, Sound, CleanValues, At;
    if n > 0 {
      ComplaintsUpTo(h, v, n - 1);
      if FirstProblem(h, n - 1, v).None? {
        if n - 1 >= 10 {
          forall j | 0 <= j < 10 ensures At(v, TEXTS[j]) != "" {
            assert Complaint(h, v, j) == None;
            TextNeeded(h, v, j);
          }
          assert TextsAreGiven(v);
        }
        VerdictIsComplaint(h, v, n - 1);
      } else {
        var e := FirstProblem(h, n - 1, v).value;
        var i :| 0 <= i < n - 1 && Complaint(h, v, i) == Some(e) && NoComplaint(h, v, i);
        assert FirstComplaint(h, v, n, e);
      }
    }
  }

  lemma TextNeeded(h: Host, v: Values, j: nat)
    requires j < 10 && Complaint(h, v, j) == None
    ensures At(v, TEXTS[j]) != ""
  {
  }

  /** The script refuses a file for the first thing that is wrong with it, and accepts it
      exactly when nothing is. */
  lemma FirstComplaintIsReported(h: Host, v: Values)
    requires Sound(h) && CleanValues(v)
    ensures var r := RunRules(h, PLAN, v);
            if r.Ok? then NoComplaint(h, v, 28) else FirstComplaint(h, v, 28, r.error)
  {
    PlanLength();
    RulesWorkIndependently(h, v);
    ComplaintsUpTo(h, v, 28);
    hide FirstProblem, PLAN, Normalised, NoComplaint, FirstComplaint, RunRules;
  }

  // ----- What is written -----

  lemma Written(h: Host, v: Values, k: Key)
    requires Accepted(h, v) && CleanValues(v)
    ensures k in Normalised(h, v) <==> k in v || k == EmailProvider
    ensures k in Normalised(h, v) ==>
              Normalised(h, v)[k] == if Given(h, v, k).Some? then Given(h, v, k).value else Lookup(v, k, "")
  {
    OwnersAreInThePlan(k);
    assert Owner(k).None? ==> Given(h, v, k).None?;
    hide Given, Verdict;
  }

  lemma OwnVerdictIsGiven(h: Host, v: Values, k: Key)
    requires Accepted(h, v) && Owner(k).Some?
    ensures Verdict(h, Owner(k).value, v) == Ok(Given(h, v, k))
  {
    OwnersAreInThePlan(k);
    AcceptedVerdict(h, v, Turn(k));
    hide Verdict, Owner, Turn, PLAN;
  }

  /** What the prepared file says under a name, given what the original said. */
  lemma WrittenAt(h: Host, v: Values, name: string)
    requires Accepted(h, v) && CleanValues(v)
    ensures var k, w := KeyOf(name), Normalised(h, v);
            At(w, name) == if Given(h, v, k).Some? && (k in v || k == EmailProvider) then Given(h, v, k).value
                           else At(v, name)
  {
    Written(h, v, KeyOf(name));
    hide Normalised, Given, KeyOf, CleanValues, Accepted;
  }

  /** The same settings are there before and after, and the e-mail provider is always. */
  lemma SameNames(h: Host, v: Values, name: string)
    requires Accepted(h, v) && CleanValues(v)
    ensures KeyOf(name) in Normalised(h, v) <==> KeyOf(name) in v || name == "EMAIL_PROVIDER"
  {
    Written(h, v, KeyOf(name));
    SettingsAreNamed();
    assert KeyOf(name) == EmailProvider ==> name == KeyName(EmailProvider);
    hide Normalised, Accepted, CleanValues, KeyOf;
  }

  lemma EnvironmentVerdict(h: Host, v: Values)
    requires CleanValues(v) && Verdict(h, KnownEnvironment, v).Ok?
    ensures var s := At(v, "ENVIRONMENT");
            && s != "" && Verdict(h, KnownEnvironment, v).value == Some(Lower(s))
            && IsEnvironment(Lower(s)) && Spells(s, Lower(s))
  {
    SettingsAreNamed();
    CleanIsStated(v, "ENVIRONMENT");
    EnvironmentsSpelled(At(v, "ENVIRONMENT"));
    hide CleanValues, KeyOf, Stated, At, Lower, Spells, IsEnvironment;
  }

  lemma BooleanVerdict(h: Host, v: Values, name: string, r: Rule)
    requires CleanValues(v) && (r == BooleanField(KeyOf(name)) || r == OptionalBoolean(KeyOf(name), "false"))
    requires Verdict(h, r, v).Ok?
    ensures var s := At(v, name);
            if s == "" then
              r.OptionalBoolean? && Verdict(h, r, v).value == if KeyOf(name) in v then Some("false") else None
            else Verdict(h, r, v).value == Some(Lower(s)) && IsBoolean(Lower(s)) && Spells(s, Lower(s))
  {
    CleanIsStated(v, name);
    BooleansSpelled(At(v, name));
    hide CleanValues, KeyOf, Stated, At, Lower, Spells;
  }

  /** Environment and logging switch: the same words, in small letters. */
  lemma WordsAreKept(h: Host, v: Values)
    requires Accepted(h, v) && CleanValues(v)
    ensures var w := Normalised(h, v);
            && Spells(At(v, "ENVIRONMENT"), At(w, "ENVIRONMENT")) && IsEnvironment(At(w, "ENVIRONMENT"))
            && Spells(At(v, "LOG_JSON"), At(w, "LOG_JSON")) && IsBoolean(At(w, "LOG_JSON"))
  {
    SettingsAreNamed();
    WrittenAt(h, v, "ENVIRONMENT");
    WrittenAt(h, v, "LOG_JSON");
    OwnVerdictIsGiven(h, v, Environment);
    OwnVerdictIsGiven(h, v, LogJson);
    EnvironmentVerdict(h, v);
    BooleanVerdict(h, v, "LOG_JSON", BooleanField(LogJson));
    hide Accepted, CleanValues, Normalised, Given, Verdict, KeyOf, Lower, Spells;
  }

  /** An optional switch keeps its word; a blank one is off. */
  lemma SwitchesAreKept(h: Host, v: Values, name: string)
    requires Accepted(h, v) && CleanValues(v) && name in SWITCHES
    ensures var before, after := At(v, name), At(Normalised(h, v), name);
            if before != "" then Spells(before, after) && IsBoolean(after)
            else after == if KeyOf(name) in v then "false" else ""
  {
    var k := KeyOf(name);
    SwitchOwners(name);
    WrittenAt(h, v, name);
    OwnVerdictIsGiven(h, v, k);
    BooleanVerdict(h, v, name, OptionalBoolean(k, "false"));
    hide Accepted, CleanValues, Normalised, Given, Verdict, KeyOf, Lower, Spells, Owner, SWITCHES;
  }

  lemma SwitchOwners(name: string)
    requires name in SWITCHES
    ensures Owner(KeyOf(name)) == Some(OptionalBoolean(KeyOf(name), "false"))
    ensures KeyOf(name) != EmailProvider
  {
    SettingsAreNamed();
    hide KeyOf;
  }

  /** The value that a blank optional number gets, by name. */
  function BlankNumber(name: string): string {
    if name == "SMTP_PORT" then "587" else if name == "SMTP_TIMEOUT_SECONDS" then "10" else ""
  }

  lemma NumberOwners(name: string)
    requires name in NUMBERS
    ensures var k := KeyOf(name);
            && k != EmailProvider
            && (BlankNumber(name) == "" ==> Owner(k) == Some(PositiveInteger(k)))
            && (BlankNumber(name) != "" ==> Owner(k) == Some(OptionalInteger(k, BlankNumber(name))))
  {
    NumbersAreNamed();
    NumberNames();
    hide KeyOf, NUMBERS, BlankNumber;
    if name == NUMBERS[0] {
    } else if name == NUMBERS[1] {
    } else if name == NUMBERS[2] {
    } else if name == NUMBERS[3] {
    } else {
      assert name == NUMBERS[4];
    }
  }

  lemma NumberNames()
    ensures |NUMBERS| == 5
    ensures NUMBERS[0] == "HEALTHCHECK_TIMEOUT_SECONDS" && NUMBERS[1] == "APPROVAL_TOKEN_TTL_MINUTES"
    ensures NUMBERS[2] == "JWT_EXPIRATION_MINUTES" && NUMBERS[3] == "SMTP_PORT" && NUMBERS[4] == "SMTP_TIMEOUT_SECONDS"
    ensures BlankNumber(NUMBERS[0]) == BlankNumber(NUMBERS[1]) == BlankNumber(NUMBERS[2]) == ""
    ensures BlankNumber(NUMBERS[3]) == "587" && BlankNumber(NUMBERS[4]) == "10"
  {
    assert |"SMTP_PORT"| == 9 && |"SMTP_TIMEOUT_SECONDS"| == 20 && |"HEALTHCHECK_TIMEOUT_SECONDS"| == 27;
    assert |"APPROVAL_TOKEN_TTL_MINUTES"| == 26 && |"JWT_EXPIRATION_MINUTES"| == 22;
  }

  lemma NumberVerdict(h: Host, v: Values, name: string, r: Rule)
    requires CleanValues(v) && Verdict(h, r, v).Ok?
    requires r == PositiveInteger(KeyOf(name)) || r == OptionalInteger(KeyOf(name), BlankNumber(name))
    ensures var s := At(v, name); var given := Verdict(h, r, v).value;
            if s == "" then
              given == if r.OptionalInteger? && KeyOf(name) in v then Some(BlankNumber(name)) else None
            else
              && ReadInt(h, s).Some? && ReadInt(h, s).value > 0
              && given == Some(NatText(ReadInt(h, s).value))
  {
    CleanIsStated(v, name);
    hide CleanValues, KeyOf, Stated, At, ReadInt, BlankNumber, NatText;
  }

  lemma {:induction false} NoLeadingZero(n: nat)
    requires n > 0
    ensures NatText(n)[0] != '0'
  {
    if n >= 10 { NoLeadingZero(n / 10); }
  }

  /** Each of the five numbers stays the number it was, written without sign, zeros or
      underscores; a blank one is left blank or gets its default. */
  lemma NumbersAreKept(h: Host, v: Values, name: string)
    requires Sound(h) && Accepted(h, v) && CleanValues(v) && name in NUMBERS
    ensures var before, after := At(v, name), At(Normalised(h, v), name);
            if before != "" then
              && ReadInt(h, after) == ReadInt(h, before) && ReadInt(h, before).Some? && ReadInt(h, before).value > 0
              && AllDigits(after) && after != "" && after[0] != '0'
            else after == if KeyOf(name) in v then BlankNumber(name) else ""
  {
    var k := KeyOf(name);
    NumberOwners(name);
    WrittenAt(h, v, name);
    OwnVerdictIsGiven(h, v, k);
    NumberVerdict(h, v, name, Owner(k).value);
    if At(v, name) != "" {
      IntReadsBack(h, ReadInt(h, At(v, name)).value);
      NoLeadingZero(ReadInt(h, At(v, name)).value);
    }
    hide Sound, Accepted, CleanValues, Normalised, Given, Verdict, KeyOf, ReadInt, Owner, NUMBERS, BlankNumber, NatText;
  }

  /** `word` is `s` with its small ASCII letters made capitals. */
  predicate Capitalises(s: string, word: string) {
    && |s| == |word|
    && forall i :: 0 <= i < |s| ==>
         if 'a' <= s[i] <= 'z' then s[i] as int - 32 == word[i] as int else 'A' <= s[i] <= 'Z' && s[i] == word[i]
  }

  lemma {:induction false} UpperCapitalises(h: Host, s: string, word: string)
    requires Sound(h) && Capitalises(s, word)
    ensures Upper(h, s) == word
  {
    if s == "" {
    } else {
      forall i | 0 <= i < |s[1..]|
        ensures if 'a' <= s[1..][i] <= 'z' then s[1..][i] as int - 32 == word[1..][i] as int
                else 'A' <= s[1..][i] <= 'Z' && s[1..][i] == word[1..][i]
      {
        assert s[i + 1] == s[1..][i];
      }
      UpperCapitalises(h, s[1..], word[1..]);
      assert word == [word[0]] + word[1..];
      FirstCapital(h, s[0], word[0]);
    }
  }

  lemma FirstCapital(h: Host, c: char, w: char)
    requires Sound(h)
    requires if 'a' <= c <= 'z' then c as int - 32 == w as int else 'A' <= c <= 'Z' && c == w
    ensures h.upper(c) == [w]
  {
    if 'a' <= c <= 'z' { assert h.upper(c) == [(c as int - 32) as char]; }
  }

  /** The e-mail provider is upper-cased, and SMTP when nothing is said; the log level is
      upper-cased. Letters become capitals. */
  lemma CapitalsAreWritten(h: Host, v: Values)
    requires Sound(h) && Accepted(h, v) && CleanValues(v)
    ensures var w := Normalised(h, v);
            && At(w, "EMAIL_PROVIDER")
               == (if At(v, "EMAIL_PROVIDER") == "" then "SMTP" else Upper(h, At(v, "EMAIL_PROVIDER")))
            && IsProvider(At(w, "EMAIL_PROVIDER"))
            && At(w, "LOG_LEVEL") == Upper(h, At(v, "LOG_LEVEL"))
    ensures forall s, word :: Capitalises(s, word) ==> Upper(h, s) == word
  {
    SettingsAreNamed();
    WrittenAt(h, v, "EMAIL_PROVIDER");
    WrittenAt(h, v, "LOG_LEVEL");
    OwnVerdictIsGiven(h, v, EmailProvider);
    OwnVerdictIsGiven(h, v, LogLevel);
    ProviderVerdict(h, v);
    LevelVerdict(h, v);
    forall s, word | Capitalises(s, word) ensures Upper(h, s) == word { UpperCapitalises(h, s, word); }
    hide Sound, Accepted, CleanValues, Normalised, Given, Verdict, KeyOf, Upper, Capitalises;
  }

  lemma ProviderGiven(h: Host, v: Values)
    requires Verdict(h, KnownProvider, v).Ok?
    ensures Verdict(h, KnownProvider, v).value == Some(ProviderOf(h, v)) && IsProvider(ProviderOf(h, v))
  {
    hide ProviderOf;
  }

  lemma ProviderVerdict(h: Host, v: Values)
    requires Sound(h) && CleanValues(v) && Verdict(h, KnownProvider, v).Ok?
    ensures var s := At(v, "EMAIL_PROVIDER"); var given := Verdict(h, KnownProvider, v).value;
            given.Some? && IsProvider(given.value) && given.value == if s == "" then "SMTP" else Upper(h, s)
  {
    var s := At(v, "EMAIL_PROVIDER");
    ProviderGiven(h, v);
    ProviderStated(h, v);
    if s != "" {
      assert CleanValue(s);
      UpperIsClean(h, s);
    }
    assert Upper(h, "") == "";
    hide Sound, CleanValues, KeyOf, Upper, At, ProviderOf, CleanValue, Verdict, IsProvider;
  }

  lemma LevelVerdict(h: Host, v: Values)
    requires Verdict(h, UppercaseLevel, v).Ok?
    ensures LogLevel in v && Verdict(h, UppercaseLevel, v).value == Some(Upper(h, At(v, "LOG_LEVEL")))
  {
    SettingsAreNamed();
    hide KeyOf, Upper;
  }

  /** The names of all settings that are ever rewritten. */
  const REWRITTEN: seq<string> :=
    ["ENVIRONMENT", "EMAIL_PROVIDER", "LOG_JSON", "LOG_LEVEL", "SMTP_USE_TLS", "SMTP_USE_AUTH",
     "HEALTHCHECK_TIMEOUT_SECONDS", "APPROVAL_TOKEN_TTL_MINUTES", "JWT_EXPIRATION_MINUTES", "SMTP_PORT",
     "SMTP_TIMEOUT_SECONDS", "CORS_ALLOWED_ORIGINS", "TRUSTED_HOSTS"]

  lemma OwnersAreNamed(k: Key)
    requires Owner(k).Some?
    ensures KeyName(k) in REWRITTEN
  {
    var i := match k
      case Environment => 0
      case EmailProvider => 1
      case LogJson => 2
      case LogLevel => 3
      case SmtpUseTls => 4
      case SmtpUseAuth => 5
      case HealthcheckTimeoutSeconds => 6
      case ApprovalTokenTtlMinutes => 7
      case JwtExpirationMinutes => 8
      case SmtpPort => 9
      case SmtpTimeoutSeconds => 10
      case CorsAllowedOrigins => 11
      case _ => 12;
    assert KeyName(k) == REWRITTEN[i];
  }

  /** Every other setting stays as it was, letter by letter. */
  lemma OthersAreKept(h: Host, v: Values, name: string)
    requires Accepted(h, v) && CleanValues(v) && name !in REWRITTEN
    ensures At(Normalised(h, v), name) == At(v, name)
  {
    if Owner(KeyOf(name)).Some? {
      OwnersAreNamed(KeyOf(name));
      assert false;
    }
    WrittenAt(h, v, name);
    hide Accepted, CleanValues, Normalised, KeyOf, Owner, REWRITTEN;
  }

  /** A list field holds the list it held, as a JSON array. */
  lemma ListsAreKept(h: Host, v: Values, name: string)
    requires Sound(h) && Accepted(h, v) && CleanValues(v) && name in LISTS
    ensures var before, after := At(v, name), At(Normalised(h, v), name);
            && ParseCsvOrJsonList(h.show, after) == ParseCsvOrJsonList(h.show, before)
            && ParseCsvOrJsonList(h.show, before).Ok? && ParseCsvOrJsonList(h.show, before).value != []
  {
    UrlsAreNamed();
    var k := KeyOf(name);
    ListOwners(name);
    WrittenAt(h, v, name);
    OwnVerdictIsGiven(h, v, k);
    ListGiven(h, v, name);
    ListSettingsSurvive(h.show, At(v, name));
    hide Sound, Accepted, CleanValues, Normalised, Given, Verdict, KeyOf, Owner, LISTS, ParseCsvOrJsonList;
    hide NormalizedList;
  }

  lemma ListOwners(name: string)
    requires name in LISTS
    ensures Owner(KeyOf(name)) == Some(ListField(KeyOf(name))) && KeyOf(name) != EmailProvider
  {
    UrlsAreNamed();
    hide KeyOf;
  }

  lemma ListGiven(h: Host, v: Values, name: string)
    requires CleanValues(v) && Verdict(h, ListField(KeyOf(name)), v).Ok?
    ensures KeyOf(name) in v && NormalizedList(h.show, At(v, name)).Ok?
    ensures Verdict(h, ListField(KeyOf(name)), v).value == Some(NormalizedList(h.show, At(v, name)).value)
  {
    CleanIsStated(v, name);
    assert Strip("") == "";
    hide CleanValues, KeyOf, Stated, Strip;
  }
}
