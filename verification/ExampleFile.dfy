/** A file the deploy script accepts although it lacks every integer that is called required. */
module ExampleFile {
  import opened Wrappers
  import opened PyText
  import opened Json
  import opened ListSettings
  import opened EnvFile
  import opened EnvRules
  import opened PrepareEnv

  const KEYS: seq<Key> :=
    [AppName, AppVersion, Environment, LogLevel, LogJson, DatabaseUrl, AppBaseUrl, CorsAllowedOrigins,
     TrustedHosts, JwtAlgorithm, ApprovalTokenSecret, JwtSecret, CustomerJwtSecret]

  /** The user and the database that the script expects unless the file says otherwise. */
  const DB_USER := "billing_service_user"
  const DB_NAME := "billing_service_db"
  const SCHEME := "postgresql://"
  const DB_URL := SCHEME + (DB_USER + ("@h/" + DB_NAME))
  const BASE_URL := "http://a"

  /** Both URLs are valid in the eyes of the host. */
  predicate GoodUrls(h: Host) {
    h.databaseOk(DB_URL, DB_NAME, DB_USER) && h.baseUrlOk(BASE_URL)
  }

  function Value(k: Key): string {
    match k
    case Environment => "test"
    case LogJson => "true"
    case DatabaseUrl => DB_URL
    case AppBaseUrl => BASE_URL
    case _ => "A"
  }

  const VALUES: Values := map k | k in KEYS :: Value(k)

  /** One line per key, such as `APP_NAME=A`. */
  const TEXT := JoinLines(LinesFor(VALUES, KEYS))

  predicate Printable(s: string) {
    s != "" && forall i :: 0 <= i < |s| ==> '!' <= s[i] <= '~'
  }

  lemma PrintableConcat(a: string, b: string)
    requires Printable(a) && Printable(b)
    ensures Printable(a + b)
  {
  }

  lemma PrintableParts()
    ensures Printable(DB_USER) && Printable(DB_NAME) && Printable(SCHEME) && Printable("@h/") && Printable(BASE_URL)
  {
  }

  lemma DatabaseUrlIsPrintable()
    ensures Printable(DB_URL) && SCHEME <= DB_URL
  {
    PrintableParts();
    var target := "@h/" + DB_NAME;
    var rest := DB_USER + target;
    hide Printable, DB_USER, DB_NAME;
    PrintableConcat("@h/", DB_NAME);
    PrintableConcat(DB_USER, target);
    PrintableConcat(SCHEME, rest);
    assert SCHEME + rest == DB_URL;
  }

  lemma ValueIsPrintable(k: Key)
    ensures Printable(Value(k))
  {
    DatabaseUrlIsPrintable();
    PrintableParts();
    hide DB_URL, BASE_URL;
  }

  lemma ValuesAreClean(k: Key)
    ensures Value(k) != "" && CleanValue(Value(k)) && Strip(Value(k)) == Value(k)
  {
    ValueIsPrintable(k);
    hide Value;
    StripOfStripped(IsSpace, Value(k));
  }

  lemma StatedValue(k: Key)
    ensures k in KEYS ==> Stated(VALUES, k) == Value(k) != ""
  {
    ValuesAreClean(k);
    hide Value;
  }

  lemma OnePart()
    ensures SplitOn("A", ',') == ["A"]
  {
    var s := "A";
    var rest := SplitOn(s[1..], ',');
    assert s[1..] == "" && rest == [""] && rest[1..] == [];
    assert [s[0]] + rest[0] == "A";
  }

  lemma SingleItem(show: Show)
    ensures NormalizedList(show, "A").Ok?
  {
    OnePart();
    StripOfStripped(IsSpace, "A");
    var parts, p := ["A"], ToPoints("A");
    assert |p| == 1 && p[0] == 65 && !IsSpacePoint(p[0]) && !IsSpacePoint(p[|p| - 1]);
    StripOfStripped(IsSpacePoint, p);
    assert parts[1..] == [];
    var items := AllPoints(parts);
    assert items == [p] && items[1..] == [];
    assert Trimmed(items) == [p] + Trimmed(items[1..]) || Trimmed(items) != [];
  }

  lemma UrlsAreStated()
    ensures Stated(VALUES, DatabaseUrl) == DB_URL != "" && Stated(VALUES, AppBaseUrl) == BASE_URL != ""
  {
    StatedValue(DatabaseUrl);
    StatedValue(AppBaseUrl);
    hide Stated, VALUES, DB_URL, BASE_URL;
  }

  lemma NothingElseIsExpected()
    ensures Lookup(VALUES, ExpectedDatabaseName, DB_NAME) == DB_NAME
    ensures Lookup(VALUES, ExpectedDatabaseUsername, DB_USER) == DB_USER
  {
    hide Value, DB_NAME, DB_USER;
  }

  lemma UrlsAreJudged(h: Host)
    ensures Verdict(h, ValidDatabaseUrl, VALUES).Ok? <==> h.databaseOk(DB_URL, DB_NAME, DB_USER)
    ensures Verdict(h, ValidBaseUrl, VALUES).Ok? <==> h.baseUrlOk(BASE_URL)
  {
    UrlsAreStated();
    NothingElseIsExpected();
    DatabaseUrlIsPrintable();
    hide Stated, Lookup, VALUES, DB_URL, BASE_URL, IntegerOutcome, BooleanOutcome, NormalizedList;
  }

  lemma ChecksAreGood(h: Host, r: Rule)
    requires IsCheck(r) && GoodUrls(h)
    ensures Verdict(h, r, VALUES).Ok?
  {
    UrlsAreJudged(h);
    hide Value, VALUES, DB_URL, BASE_URL;
    match r
    case ValidDatabaseUrl =>
    case ValidBaseUrl =>
    case AnyOf(keys, _) =>
      StatedValue(keys[0]);
      assert keys[0] in keys;
  }

  lemma VerdictsAreGood(h: Host, n: nat)
    requires Sound(h) && GoodUrls(h) && n < |PLAN|
    ensures Verdict(h, PLAN[n], VALUES).Ok?
  {
    PlanHasThreeParts(n);
    if PLAN[n].NonEmpty? {
      TextsComeFirst(n);
      StatedValue(REQUIRED_TEXT_FIELDS[n]);
    } else if IsCheck(PLAN[n]) {
      ChecksAreGood(h, PLAN[n]);
    } else {
      PlanWritesOwnKeys(n);
      WritersAreGood(h, Target(PLAN[n]).value);
    }
  }

  /** A key without a line, other than the e-mail provider, is passed over. */
  lemma MissingIsGood(h: Host, k: Key)
    requires k !in KEYS && k != EmailProvider && Owner(k).Some?
    ensures Verdict(h, Owner(k).value, VALUES) == Ok(None)
  {
    hide IntegerOutcome, BooleanOutcome, ProviderOf, NormalizedList, Upper, Lower;
    assert Strip("") == "";
  }

  lemma EnvironmentIsGood(h: Host)
    ensures Verdict(h, KnownEnvironment, VALUES).Ok?
  {
    hide Lower;
    StatedValue(Environment);
    WordsAreNormal("test");
  }

  lemma BooleanIsGood(h: Host)
    ensures Verdict(h, BooleanField(LogJson), VALUES).Ok?
  {
    hide Lower;
    StatedValue(LogJson);
    WordsAreNormal("true");
  }

  lemma ProviderIsMissing(h: Host)
    ensures ProviderOf(h, VALUES) == ProviderOf(h, map[])
  {
    hide Value, Upper, Strip;
  }

  lemma ProviderIsGood(h: Host)
    requires Sound(h)
    ensures Verdict(h, KnownProvider, VALUES).Ok?
  {
    ProviderIsMissing(h);
    hide VALUES, Upper, Strip;
    ProvidersAreNormal(h, "SMTP");
  }

  lemma ListsAreGood(h: Host, k: Key)
    requires k == CorsAllowedOrigins || k == TrustedHosts
    ensures Verdict(h, ListField(k), VALUES).Ok?
  {
    hide NormalizedList;
    StatedValue(k);
    SingleItem(h.show);
  }

  lemma LevelIsGood(h: Host)
    ensures Verdict(h, UppercaseLevel, VALUES).Ok?
  {
    hide Upper;
    assert LogLevel in KEYS;
  }

  lemma WrittenOwners(k: Key)
    requires Owner(k).Some? && (k in KEYS || k == EmailProvider)
    ensures Owner(k).value in {KnownEnvironment, BooleanField(LogJson), KnownProvider, UppercaseLevel}
            || Owner(k).value in {ListField(CorsAllowedOrigins), ListField(TrustedHosts)}
  {
  }

  lemma WritersAreGood(h: Host, k: Key)
    requires Sound(h) && Owner(k).Some?
    ensures Verdict(h, Owner(k).value, VALUES).Ok?
  {
    EnvironmentIsGood(h);
    BooleanIsGood(h);
    ProviderIsGood(h);
    ListsAreGood(h, CorsAllowedOrigins);
    ListsAreGood(h, TrustedHosts);
    LevelIsGood(h);
    if k in KEYS || k == EmailProvider { WrittenOwners(k); } else { MissingIsGood(h, k); }
    hide *;
  }

  lemma UrlsHaveTheirTurn()
    ensures |PLAN| == 28 && PLAN[20] == ValidDatabaseUrl && PLAN[21] == ValidBaseUrl
  {
  }

  lemma ExampleIsAccepted(h: Host)
    requires Sound(h)
    ensures Accepted(h, VALUES) <==> GoodUrls(h)
  {
    UrlsHaveTheirTurn();
    UrlsAreJudged(h);
    hide PLAN, Verdict, VALUES, DB_URL, BASE_URL, DB_USER, DB_NAME, FirstProblem;
    NoProblemAtAll(h, |PLAN|, VALUES);
    if GoodUrls(h) {
      forall n | 0 <= n < |PLAN| ensures Verdict(h, PLAN[n], VALUES).Ok? { VerdictsAreGood(h, n); }
    }
  }

  predicate PlainName(name: string) {
    name != "" && forall i :: 0 <= i < |name| ==> name[i] == '_' || 'A' <= name[i] <= 'Z'
  }

  lemma ApplicationNamesArePlain(k: Key)
    requires k in KEYS[0..3]
    ensures PlainName(KeyName(k))
  {
  }

  lemma LoggingNamesArePlain(k: Key)
    requires k in KEYS[3..5]
    ensures PlainName(KeyName(k))
  {
  }

  lemma UrlNamesArePlain(k: Key)
    requires k in KEYS[5..7]
    ensures PlainName(KeyName(k))
  {
  }

  lemma OriginNameIsPlain(k: Key)
    requires k in KEYS[7..8]
    ensures PlainName(KeyName(k))
  {
  }

  lemma HostNamesArePlain(k: Key)
    requires k in KEYS[8..10]
    ensures PlainName(KeyName(k))
  {
  }

  lemma ApprovalNameIsPlain(k: Key)
    requires k in KEYS[10..11]
    ensures PlainName(KeyName(k))
  {
  }

  lemma SecretNamesArePlain(k: Key)
    requires k in KEYS[11..13]
    ensures PlainName(KeyName(k))
  {
  }

  lemma PlainNamesAreClean(name: string)
    requires PlainName(name)
    ensures CleanKey(name)
  {
  }

  lemma NamesArePlain(i: nat)
    requires i < |KEYS|
    ensures PlainName(KeyName(KEYS[i]))
  {
    var k := KEYS[i];
    if k in KEYS[0..3] {
      ApplicationNamesArePlain(k);
    } else if k in KEYS[3..5] {
      LoggingNamesArePlain(k);
    } else if k in KEYS[5..7] {
      UrlNamesArePlain(k);
    } else if k in KEYS[7..8] {
      OriginNameIsPlain(k);
    } else if k in KEYS[8..10] {
      HostNamesArePlain(k);
    } else if k in KEYS[10..11] {
      ApprovalNameIsPlain(k);
    } else {
      KeysInParts(i);
      SecretNamesArePlain(k);
    }
  }

  lemma KeysInParts(i: nat)
    requires i < |KEYS|
    ensures var k := KEYS[i];
            || k in KEYS[0..3] || k in KEYS[3..5] || k in KEYS[5..7] || k in KEYS[7..8] || k in KEYS[8..10]
            || k in KEYS[10..11] || k in KEYS[11..13]
  {
  }

  lemma KeysAreWritable(i: nat)
    requires i < |KEYS|
    ensures Writable(VALUES, KEYS[i])
  {
    hide KeyName, CleanKey, CleanValue, KeyOf, PlainName, Value;
    var k := KEYS[i];
    NamesArePlain(i);
    PlainNamesAreClean(KeyName(k));
    ValuesAreClean(k);
    KnownNamesRoundTrip(k);
  }

  lemma ExampleLoads()
    ensures ValuesOf(SplitLines(TEXT)) == VALUES
  {
    forall i | 0 <= i < |KEYS| ensures Writable(VALUES, KEYS[i]) { KeysAreWritable(i); }
    hide Writable;
    FileLoads(VALUES, KEYS);
  }

  lemma FieldsAreMissing(k: Key)
    requires CalledRequired(k)
    ensures k !in VALUES
  {
  }

  /** The example as a text: whatever the host, the script accepts it exactly when the two
      URLs are valid, and it has none of the three fields. */
  lemma ExampleIsPrepared(h: Host)
    requires Sound(h)
    ensures PreparedText(h, TEXT).Ok? <==> GoodUrls(h)
    ensures forall k :: CalledRequired(k) ==> k !in ValuesOf(SplitLines(TEXT))
  {
    ExampleLoads();
    ExampleIsAccepted(h);
    RulesWorkIndependently(h, VALUES);
    forall k | CalledRequired(k) ensures k !in VALUES { FieldsAreMissing(k); }
    hide ValuesOf, SplitLines, RunRules, Normalised, CalledRequired, GoodUrls, VALUES, TEXT;
  }
}
