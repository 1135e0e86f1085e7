/** The rules the deploy script applies to the values of an env file, in order, and why
    applying them again changes nothing. */
module EnvRules {
  import opened Wrappers
  import opened PyText
  import opened Decimals
  import opened ListSettings
  import opened EnvFile
  import J = Json

  /** What is decided outside the script: case and digit tables, rendering of JSON items,
      and the validity of the two URLs. */
  datatype Host = Host(upper: char -> string, digit: char -> Option<nat>, show: Show,
                       databaseOk: (string, string, string) -> bool, baseUrlOk: string -> bool)

  function Upper(h: Host, s: string): string {
    if s == "" then "" else h.upper(s[0]) + Upper(h, s[1..])
  }

  predicate NoSpaces(s: string) {
    forall i :: 0 <= i < |s| ==> !IsSpace(s[i])
  }

  /** Facts of the Unicode tables: blanks have no case, nothing turns blank, ASCII letters
      become their capitals, and upper-casing twice is upper-casing once. */
  ghost predicate Cased(h: Host) {
    && (forall c: char {:trigger h.upper(c)} :: IsSpace(c) ==> h.upper(c) == [c])
    && (forall c: char {:trigger h.upper(c)} :: !IsSpace(c) ==> h.upper(c) != "" && NoSpaces(h.upper(c)))
    && (forall c: char :: 'A' <= c <= 'Z' ==> h.upper(c) == [c])
    && (forall c: char :: 'a' <= c <= 'z' ==> h.upper(c) == [(c as int - 32) as char])
    && (forall c: char {:trigger Upper(h, h.upper(c))} :: Upper(h, h.upper(c)) == h.upper(c))
  }

  /** Digits are below ten, ASCII digits are what they say, and the underscore is none. */
  ghost predicate Numbered(h: Host) {
    && (forall c: char :: IsDigit(c) ==> h.digit(c) == Some(c as int - '0' as int))
    && (forall c: char :: h.digit(c).Some? ==> h.digit(c).value < 10 && c != '_')
  }

  ghost predicate Sound(h: Host) {
    Faithful(h.show) && Cased(h) && Numbered(h)
  }

  // ----- `int` -----

  /** Digits of any script, with single underscores between them. */
  function ReadDigits(h: Host, s: string): Option<nat> {
    if s == "" then None
    else
      var last := h.digit(s[|s| - 1]);
      if last.None? || |s| == 1 then last
      else
        var rest := ReadDigits(h, if s[|s| - 2] == '_' then s[..|s| - 2] else s[..|s| - 1]);
        if rest.None? then None else Some(10 * rest.value + last.value)
  }

  function ReadInt(h: Host, s: string): Option<int> {
    var signed := s != "" && (s[0] == '-' || s[0] == '+');
    var digits := ReadDigits(h, if signed then s[1..] else s);
    if digits.None? then None
    else
      var magnitude: int := digits.value;
      Some(if signed && s[0] == '-' then -magnitude else magnitude)
  }

  // ----- Rules -----

  datatype EnvError =
    | MissingFile
    | Required(key: Key)
    | NotBoolean(key: Key)
    | NotInteger(key: Key)
    | NotPositive(key: Key)
    | UnknownEnvironment
    | UnknownProvider
    | WrongDatabaseScheme
    | WrongDatabase
    | WrongBaseUrl
    | WrongList(key: Key, problem: ListError)
    | NoneOf(keys: seq<Key>, what: string)

  datatype Rule =
    | NonEmpty(key: Key)
    | KnownEnvironment
    | KnownProvider
    | BooleanField(key: Key)
    | OptionalBoolean(key: Key, default: string)
    | PositiveInteger(key: Key)
    | OptionalInteger(key: Key, default: string)
    | ValidDatabaseUrl
    | ValidBaseUrl
    | ListField(key: Key)
    | AnyOf(keys: seq<Key>, what: string)
    | UppercaseLevel

  const REQUIRED_TEXT_FIELDS: seq<Key> :=
    [AppName, AppVersion, Environment, LogLevel, LogJson, DatabaseUrl, AppBaseUrl, CorsAllowedOrigins,
     TrustedHosts, JwtAlgorithm]

  const APPROVAL_SECRET := AnyOf([ApprovalTokenSecret, ApprovalTokenSecretFile], "Approval token secret")
  const JWT_SECRET := AnyOf([JwtSecret, JwtSecretFile], "JWT secret")
  const CUSTOMER_SECRET := AnyOf([CustomerJwtSecret, CustomerJwtSecretFile], "Customer JWT secret")

  /** What `prepare_env` does, in order. */
  const PLAN: seq<Rule> :=
    [NonEmpty(AppName), NonEmpty(AppVersion), NonEmpty(Environment), NonEmpty(LogLevel), NonEmpty(LogJson),
     NonEmpty(DatabaseUrl), NonEmpty(AppBaseUrl), NonEmpty(CorsAllowedOrigins), NonEmpty(TrustedHosts),
     NonEmpty(JwtAlgorithm),
     KnownEnvironment, KnownProvider,
     BooleanField(LogJson), OptionalBoolean(SmtpUseTls, "false"), OptionalBoolean(SmtpUseAuth, "false"),
     PositiveInteger(HealthcheckTimeoutSeconds), PositiveInteger(ApprovalTokenTtlMinutes),
     PositiveInteger(JwtExpirationMinutes),
     OptionalInteger(SmtpPort, "587"), OptionalInteger(SmtpTimeoutSeconds, "10"),
     ValidDatabaseUrl, ValidBaseUrl, ListField(CorsAllowedOrigins), ListField(TrustedHosts),
     APPROVAL_SECRET, JWT_SECRET, CUSTOMER_SECRET, UppercaseLevel]

  function Lookup(values: Values, key: Key, default: string): string {
    if key in values then values[key] else default
  }

  /** `values.get(key, "").strip()`. */
  function Stated(values: Values, key: Key): string {
    Strip(Lookup(values, key, ""))
  }

  predicate IsBoolean(s: string) {
    s == "true" || s == "false"
  }

  predicate IsEnvironment(s: string) {
    s == "development" || s == "test" || s == "staging" || s == "production"
  }

  predicate IsProvider(s: string) {
    s == "SMTP" || s == "NOOP"
  }

  function IntegerOutcome(h: Host, key: Key, raw: string): Result<Option<string>, EnvError> {
    match ReadInt(h, raw)
    case None => Err(NotInteger(key))
    case Some(n) => if n <= 0 then Err(NotPositive(key)) else Ok(Some(NatText(n)))
  }

  function BooleanOutcome(key: Key, raw: string): Result<Option<string>, EnvError> {
    if IsBoolean(Lower(raw)) then Ok(Some(Lower(raw))) else Err(NotBoolean(key))
  }

  function ProviderOf(h: Host, values: Values): string {
    var provider := Upper(h, Strip(Lookup(values, EmailProvider, "SMTP")));
    if provider == "" then "SMTP" else provider
  }

  /** The new value of the rule's key, if it gets one. */
  function Verdict(h: Host, r: Rule, values: Values): Result<Option<string>, EnvError> {
    match r
    case NonEmpty(k) => if Stated(values, k) == "" then Err(Required(k)) else Ok(None)
    case KnownEnvironment =>
      var name := Lower(Stated(values, Environment));
      if Stated(values, Environment) == "" then Err(Required(Environment))
      else if IsEnvironment(name) then Ok(Some(name)) else Err(UnknownEnvironment)
    case KnownProvider =>
      var provider := ProviderOf(h, values);
      if IsProvider(provider) then Ok(Some(provider)) else Err(UnknownProvider)
    case BooleanField(k) =>
      if Stated(values, k) == "" then Err(Required(k)) else BooleanOutcome(k, Stated(values, k))
    case OptionalBoolean(k, default) =>
      if Stated(values, k) == "" then Ok(if k in values then Some(default) else None)
      else BooleanOutcome(k, Stated(values, k))
    case PositiveInteger(k) =>
      if Stated(values, k) == "" then Ok(None) else IntegerOutcome(h, k, Stated(values, k))
    case OptionalInteger(k, default) =>
      if Stated(values, k) == "" then Ok(if k in values then Some(default) else None)
      else IntegerOutcome(h, k, Stated(values, k))
    case ValidDatabaseUrl =>
      var url := Stated(values, DatabaseUrl);
      if url == "" then Err(Required(DatabaseUrl))
      else if !("postgresql://" <= url || "postgresql+asyncpg://" <= url) then Err(WrongDatabaseScheme)
      else if h.databaseOk(url, Lookup(values, ExpectedDatabaseName, "billing_service_db"),
                           Lookup(values, ExpectedDatabaseUsername, "billing_service_user"))
      then Ok(None) else Err(WrongDatabase)
    case ValidBaseUrl =>
      var url := Stated(values, AppBaseUrl);
      if url == "" then Err(Required(AppBaseUrl)) else if h.baseUrlOk(url) then Ok(None) else Err(WrongBaseUrl)
    case ListField(k) =>
      (match NormalizedList(h.show, Stated(values, k))
       case Ok(text) => Ok(Some(text))
       case Err(Empty) => Err(Required(k))
       case Err(problem) => Err(WrongList(k, problem)))
    case AnyOf(keys, what) =>
      if forall k :: k in keys ==> Stated(values, k) == "" then Err(NoneOf(keys, what)) else Ok(None)
    case UppercaseLevel =>
      if LogLevel in values then Ok(Some(Upper(h, values[LogLevel]))) else Err(Required(LogLevel))
  }

  /** The key a rule may write. */
  function Target(r: Rule): Option<Key> {
    match r
    case KnownEnvironment => Some(Environment)
    case KnownProvider => Some(EmailProvider)
    case BooleanField(k) => Some(k)
    case OptionalBoolean(k, _) => Some(k)
    case PositiveInteger(k) => Some(k)
    case OptionalInteger(k, _) => Some(k)
    case ListField(k) => Some(k)
    case UppercaseLevel => Some(LogLevel)
    case _ => None
  }

  /** The keys a rule looks at. */
  function Reads(r: Rule): set<Key> {
    match r
    case NonEmpty(k) => {k}
    case ValidDatabaseUrl => {DatabaseUrl, ExpectedDatabaseName, ExpectedDatabaseUsername}
    case ValidBaseUrl => {AppBaseUrl}
    case AnyOf(keys, _) => set k | k in keys
    case _ => {Target(r).value}
  }

  function Apply(h: Host, r: Rule, values: Values): Result<Values, EnvError> {
    var verdict :- Verdict(h, r, values);
    Ok(if verdict.Some? && Target(r).Some? then values[Target(r).value := verdict.value] else values)
  }

  function RunRules(h: Host, rules: seq<Rule>, values: Values): Result<Values, EnvError> {
    if rules == [] then Ok(values)
    else
      var before :- RunRules(h, rules[..|rules| - 1], values);
      Apply(h, rules[|rules| - 1], before)
  }

  // ----- Each key has one rule -----

  /** The rule that may write a key. */
  function Owner(k: Key): Option<Rule> {
    match k
    case Environment => Some(KnownEnvironment)
    case EmailProvider => Some(KnownProvider)
    case LogJson => Some(BooleanField(LogJson))
    case SmtpUseTls => Some(OptionalBoolean(SmtpUseTls, "false"))
    case SmtpUseAuth => Some(OptionalBoolean(SmtpUseAuth, "false"))
    case HealthcheckTimeoutSeconds => Some(PositiveInteger(HealthcheckTimeoutSeconds))
    case ApprovalTokenTtlMinutes => Some(PositiveInteger(ApprovalTokenTtlMinutes))
    case JwtExpirationMinutes => Some(PositiveInteger(JwtExpirationMinutes))
    case SmtpPort => Some(OptionalInteger(SmtpPort, "587"))
    case SmtpTimeoutSeconds => Some(OptionalInteger(SmtpTimeoutSeconds, "10"))
    case CorsAllowedOrigins => Some(ListField(CorsAllowedOrigins))
    case TrustedHosts => Some(ListField(TrustedHosts))
    case LogLevel => Some(UppercaseLevel)
    case _ => None
  }

  /** When a key's rule is applied. */
  function Turn(k: Key): nat {
    match k
    case Environment => 10
    case EmailProvider => 11
    case LogJson => 12
    case SmtpUseTls => 13
    case SmtpUseAuth => 14
    case HealthcheckTimeoutSeconds => 15
    case ApprovalTokenTtlMinutes => 16
    case JwtExpirationMinutes => 17
    case SmtpPort => 18
    case SmtpTimeoutSeconds => 19
    case CorsAllowedOrigins => 22
    case TrustedHosts => 23
    case LogLevel => 27
    case _ => |PLAN|
  }

  predicate Unwritten(n: nat, k: Key) {
    n <= Turn(k)
  }

  lemma PlanWritesOwnKeys(n: nat)
    requires n < |PLAN|
    ensures var r := PLAN[n];
            && Proper(r)
            && (Target(r).Some? ==> Owner(Target(r).value) == Some(r) && Turn(Target(r).value) == n)
  {
  }

  lemma PlanReadsUnwrittenKeys(n: nat, k: Key)
    requires n < |PLAN| && k in Reads(PLAN[n])
    ensures Unwritten(n, k)
    ensures !PLAN[n].NonEmpty? && Target(PLAN[n]).None? ==> Owner(k).None?
  {
    hide Turn;
    TurnsComeLate(k);
    PlanHasThreeParts(n);
    if Target(PLAN[n]).Some? {
      PlanWritesOwnKeys(n);
    } else if PLAN[n].NonEmpty? {
      TextsComeFirst(n);
    } else {
      ChecksReadUnownedKeys(PLAN[n], k);
    }
  }

  /** The rules that only check, besides the required texts. */
  predicate IsCheck(r: Rule) {
    r == ValidDatabaseUrl || r == ValidBaseUrl || r == APPROVAL_SECRET || r == JWT_SECRET || r == CUSTOMER_SECRET
  }

  lemma PlanHasThreeParts(n: nat)
    requires n < |PLAN|
    ensures Target(PLAN[n]).Some? || PLAN[n].NonEmpty? || IsCheck(PLAN[n])
  {
  }

  lemma ChecksReadUnownedKeys(r: Rule, k: Key)
    requires IsCheck(r) && k in Reads(r)
    ensures Owner(k).None?
  {
  }

  lemma TurnsComeLate(k: Key)
    ensures |REQUIRED_TEXT_FIELDS| <= Turn(k)
    ensures Owner(k).None? ==> Turn(k) == |PLAN|
  {
  }

  lemma TextsComeFirst(n: nat)
    requires n < |PLAN|
    ensures PLAN[n].NonEmpty? <==> n < |REQUIRED_TEXT_FIELDS|
    ensures PLAN[n].NonEmpty? ==> PLAN[n] == NonEmpty(REQUIRED_TEXT_FIELDS[n])
  {
  }

  lemma ProviderComesTwelfth(n: nat)
    requires n < |PLAN|
    ensures EmailProvider in Reads(PLAN[n]) <==> n == 11
    ensures PLAN[n].KnownProvider? <==> n == 11
  {
  }

  /** A rule of the plan writes its own key only, and looks at keys not yet written. */
  lemma PlanIsOrderly(n: nat)
    requires n < |PLAN|
    ensures var r := PLAN[n];
            && Proper(r)
            && (Target(r).Some? ==> Owner(Target(r).value) == Some(r) && Turn(Target(r).value) == n)
            && (forall k :: k in Reads(r) ==> Unwritten(n, k))
            && (EmailProvider in Reads(r) <==> n == 11)
            && (r.KnownProvider? <==> n == 11)
  {
    PlanWritesOwnKeys(n);
    forall k | k in Reads(PLAN[n]) ensures Unwritten(n, k) { PlanReadsUnwrittenKeys(n, k); }
    ProviderComesTwelfth(n);
  }

  lemma OwnersAreInThePlan(k: Key)
    ensures Owner(k).None? ==> Turn(k) == |PLAN|
    ensures Owner(k).Some? ==> Turn(k) < |PLAN| && PLAN[Turn(k)] == Owner(k).value && Target(Owner(k).value) == Some(k)
  {
  }

  lemma VerdictFrame(h: Host, r: Rule, v: Values, w: Values)
    requires forall k :: k in Reads(r) ==> (k in v <==> k in w) && (k in v ==> v[k] == w[k])
    ensures Verdict(h, r, v) == Verdict(h, r, w)
  {
    forall k, default | k in Reads(r) ensures Lookup(v, k, default) == Lookup(w, k, default) {}
  }

  // ----- The plan, all at once -----

  /** The complaint of the first rule that refuses the original values. */
  function FirstProblem(h: Host, n: nat, values: Values): Option<EnvError>
    requires n <= |PLAN|
  {
    if n == 0 then None
    else
      var earlier := FirstProblem(h, n - 1, values);
      if earlier.Some? then earlier
      else
        match Verdict(h, PLAN[n - 1], values)
        case Err(e) => Some(e)
        case Ok(_) => None
  }

  /** What a key's own rule makes of the original values. */
  function Given(h: Host, values: Values, k: Key): Option<string> {
    if Owner(k).None? then None
    else
      match Verdict(h, Owner(k).value, values)
      case Ok(given) => given
      case Err(_) => None
  }

  /** The values after the first `n` rules: the keys whose turn has come are rewritten. */
  function Partial(h: Host, n: nat, values: Values): Values {
    map k | k in values.Keys + (if n > 11 then {EmailProvider} else {}) ::
      if Turn(k) < n && Given(h, values, k).Some? then Given(h, values, k).value else Lookup(values, k, "")
  }

  /** Every key rewritten by its own rule, from the original values. */
  function Normalised(h: Host, values: Values): Values {
    Partial(h, |PLAN|, values)
  }

  lemma PartialAgrees(h: Host, n: nat, values: Values)
    requires n < |PLAN|
    ensures Verdict(h, PLAN[n], Partial(h, n, values)) == Verdict(h, PLAN[n], values)
  {
    PlanIsOrderly(n);
    var r, w := PLAN[n], Partial(h, n, values);
    forall k | k in Reads(r) ensures (k in values <==> k in w) && (k in values ==> values[k] == w[k]) {
      assert Unwritten(n, k);
    }
    VerdictFrame(h, r, values, w);
  }

  lemma PartialStep(h: Host, n: nat, values: Values)
    requires n < |PLAN| && Verdict(h, PLAN[n], values).Ok?
    ensures Apply(h, PLAN[n], Partial(h, n, values)) == Ok(Partial(h, n + 1, values))
  {
    PlanIsOrderly(n);
    PartialAgrees(h, n, values);
    WritesPresentKeys(h, PLAN[n], values);
    forall k ensures Turn(k) == n ==> Target(PLAN[n]) == Some(k) && Owner(k) == Some(PLAN[n]) {
      OwnersAreInThePlan(k);
    }
    TurnOf(h, n, PLAN[n], values);
  }

  lemma TurnOf(h: Host, n: nat, r: Rule, values: Values)
    requires Verdict(h, r, values).Ok?
    requires forall k :: Turn(k) == n ==> Target(r) == Some(k) && Owner(k) == Some(r)
    requires Target(r).Some? ==> Owner(Target(r).value) == Some(r) && Turn(Target(r).value) == n
    requires r.KnownProvider? <==> n == 11
    requires r.KnownProvider? ==> Verdict(h, r, values).value.Some?
    requires !r.KnownProvider? && Verdict(h, r, values).value.Some? && Target(r).Some? ==> Target(r).value in values
    ensures var given, before := Verdict(h, r, values).value, Partial(h, n, values);
            Partial(h, n + 1, values)
            == if given.Some? && Target(r).Some? then before[Target(r).value := given.value] else before
  {
    hide Verdict, Turn, Owner;
    var given, before, after := Verdict(h, r, values).value, Partial(h, n, values), Partial(h, n + 1, values);
    forall k ensures Turn(k) < n + 1 <==> Turn(k) < n || Target(r) == Some(k) {}
    forall k | Target(r) == Some(k) ensures Given(h, values, k) == given {}
  }

  /** Only the e-mail provider is added; any other rule writes a key that is there. */
  lemma WritesPresentKeys(h: Host, r: Rule, values: Values)
    requires Verdict(h, r, values).Ok?
    ensures r.KnownProvider? ==> Verdict(h, r, values).value.Some?
    ensures !r.KnownProvider? && Verdict(h, r, values).value.Some? && Target(r).Some? ==> Target(r).value in values
  {
    assert Strip("") == "";
    assert Lower("") == "";
  }

  lemma NothingYet(h: Host, values: Values)
    ensures Partial(h, 0, values) == values
  {
  }

  lemma {:induction false} PrefixIsPartial(h: Host, n: nat, values: Values)
    requires n <= |PLAN|
    ensures RunRules(h, PLAN[..n], values) ==
            if FirstProblem(h, n, values).Some? then Err(FirstProblem(h, n, values).value)
            else Ok(Partial(h, n, values))
  {
    hide Verdict, Partial;
    if n == 0 {
      assert PLAN[..0] == [];
      NothingYet(h, values);
    } else {
      PrefixIsPartial(h, n - 1, values);
      assert PLAN[..n][..n - 1] == PLAN[..n - 1];
      if FirstProblem(h, n - 1, values).None? {
        PartialAgrees(h, n - 1, values);
        if Verdict(h, PLAN[n - 1], values).Ok? { PartialStep(h, n - 1, values); }
      }
    }
  }

  /** Applying the rules one after the other, each to what the earlier ones have left, is
      the same as judging the original values by all rules at once: the first complaint
      stops, and without one each key is what its own rule makes of the original. */
  lemma RulesWorkIndependently(h: Host, values: Values)
    ensures RunRules(h, PLAN, values) ==
            if FirstProblem(h, |PLAN|, values).Some? then Err(FirstProblem(h, |PLAN|, values).value)
            else Ok(Normalised(h, values))
  {
    assert PLAN[..|PLAN|] == PLAN;
    PrefixIsPartial(h, |PLAN|, values);
  }

  // ----- Normal forms stay -----

  lemma LastDigitIs(n: nat)
    ensures var s := NatText(n);
            && IsDigit(s[|s| - 1]) && s[|s| - 1] as int - '0' as int == n % 10
            && (if n < 10 then |s| == 1 else |s| > 1 && s[|s| - 2] != '_' && s[..|s| - 1] == NatText(n / 10))
  {
    var s := NatText(n);
    if n >= 10 {
      assert s[..|s| - 1] == NatText(n / 10);
      assert IsDigit(s[|s| - 2]);
    }
  }

  lemma LastDigitReads(h: Host, n: nat)
    requires Sound(h)
    ensures var s := NatText(n); h.digit(s[|s| - 1]) == Some(n % 10)
  {
    hide NatText, Cased;
    LastDigitIs(n);
  }

  lemma ReadStep(h: Host, s: string)
    requires s != "" && h.digit(s[|s| - 1]).Some?
    ensures var last := h.digit(s[|s| - 1]).value;
            if |s| == 1 then ReadDigits(h, s) == Some(last)
            else
              var rest := ReadDigits(h, if s[|s| - 2] == '_' then s[..|s| - 2] else s[..|s| - 1]);
              ReadDigits(h, s) == if rest.None? then None else Some(10 * rest.value + last)
  {
  }

  lemma {:induction false} DigitsReadBack(h: Host, n: nat)
    requires Sound(h)
    ensures ReadDigits(h, NatText(n)) == Some(n)
  {
    hide ReadDigits, NatText, Sound;
    LastDigitIs(n);
    LastDigitReads(h, n);
    ReadStep(h, NatText(n));
    if n >= 10 { DigitsReadBack(h, n / 10); }
  }

  lemma IntReadsBack(h: Host, n: nat)
    requires Sound(h)
    ensures ReadInt(h, NatText(n)) == Some(n)
  {
    DigitsReadBack(h, n);
    assert IsDigit(NatText(n)[0]);
  }

  lemma {:induction false} LowerOfSmall(s: string)
    requires forall i :: 0 <= i < |s| ==> 'a' <= s[i] <= 'z'
    ensures Lower(s) == s
  {
    if s == "" {
    } else {
      LowerOfSmall(s[1..]);
      assert s == [s[0]] + s[1..];
    }
  }

  lemma {:induction false} UpperOfCapitals(h: Host, s: string)
    requires Sound(h) && forall i :: 0 <= i < |s| ==> 'A' <= s[i] <= 'Z'
    ensures Upper(h, s) == s
  {
    if s == "" {
    } else {
      UpperOfCapitals(h, s[1..]);
      assert h.upper(s[0]) == [s[0]];
      assert s == [s[0]] + s[1..];
    }
  }

  lemma {:induction false} UpperOfConcat(h: Host, a: string, b: string)
    ensures Upper(h, a + b) == Upper(h, a) + Upper(h, b)
  {
    if a == "" {
      assert a + b == b;
    } else {
      UpperOfConcat(h, a[1..], b);
      assert (a + b)[1..] == a[1..] + b;
    }
  }

  lemma {:induction false} UpperTwice(h: Host, s: string)
    requires Sound(h)
    ensures Upper(h, Upper(h, s)) == Upper(h, s)
  {
    if s == "" {
    } else {
      UpperOfConcat(h, h.upper(s[0]), Upper(h, s[1..]));
      UpperTwice(h, s[1..]);
    }
  }

  lemma UpperOfOne(h: Host, c: char)
    requires Sound(h)
    ensures h.upper(c) != ""
    ensures !IsSpace(c) ==> !IsSpace(h.upper(c)[0]) && !IsSpace(h.upper(c)[|h.upper(c)| - 1])
    ensures !IsBreak(c) ==> Unbroken(h.upper(c))
  {
    hide Numbered, IsSpacePoint;
    if IsSpace(c) { assert h.upper(c) == [c]; } else { BreaksAreBlank(h.upper(c)); }
  }

  lemma BreaksAreBlank(s: string)
    requires NoSpaces(s)
    ensures Unbroken(s)
  {
  }

  lemma UnbrokenConcat(a: string, b: string)
    requires Unbroken(a) && Unbroken(b)
    ensures Unbroken(a + b)
  {
  }

  /** A text with no line break, that does not begin or end with a blank, stays one. */
  lemma {:induction false} UpperEnds(h: Host, s: string)
    requires Sound(h) && Unbroken(s)
    ensures Unbroken(Upper(h, s))
    ensures s != "" ==> Upper(h, s) != ""
    ensures s != "" && !IsSpace(s[0]) ==> !IsSpace(Upper(h, s)[0])
    ensures s != "" && !IsSpace(s[|s| - 1]) ==> !IsSpace(Upper(h, s)[|Upper(h, s)| - 1])
  {
    if s == "" {
    } else {
      var first, rest := s[0], s[1..];
      assert !IsBreak(first) && Unbroken(rest);
      UpperOfOne(h, first);
      UpperEnds(h, rest);
      UnbrokenConcat(h.upper(first), Upper(h, rest));
      hide Sound, Unbroken, IsSpace;
      if |s| > 1 { assert rest[|rest| - 1] == s[|s| - 1]; }
    }
  }

  lemma UpperIsClean(h: Host, s: string)
    requires Sound(h) && CleanValue(s)
    ensures CleanValue(Upper(h, s)) && (s != "" ==> Upper(h, s) != "")
  {
    UpperEnds(h, s);
  }

  /** Rules whose default is already in normal form. */
  predicate Proper(r: Rule) {
    match r
    case OptionalBoolean(_, default) => IsBoolean(default)
    case OptionalInteger(_, default) => default == "587" || default == "10"
    case _ => true
  }

  lemma DefaultsAreNumbers()
    ensures NatText(587) == "587" && NatText(10) == "10"
  {
    assert NatText(58) == "58" by { assert NatText(5) == "5"; }
    assert NatText(1) == "1";
  }

  predicate AllSmall(s: string) {
    forall i :: 0 <= i < |s| ==> 'a' <= s[i] <= 'z'
  }

  lemma WordsAreSmall(s: string)
    requires IsBoolean(s) || IsEnvironment(s)
    ensures s != "" && AllSmall(s)
  {
  }

  lemma SmallIsNormal(s: string)
    requires AllSmall(s)
    ensures CleanValue(s) && Strip(s) == s && Lower(s) == s
  {
    LowerOfSmall(s);
    StripOfStripped(IsSpace, s);
  }

  lemma WordsAreNormal(s: string)
    requires IsBoolean(s) || IsEnvironment(s)
    ensures s != "" && CleanValue(s) && Strip(s) == s && Lower(s) == s
  {
    WordsAreSmall(s);
    SmallIsNormal(s);
  }

  predicate AllCapital(s: string) {
    forall i :: 0 <= i < |s| ==> 'A' <= s[i] <= 'Z'
  }

  lemma ProvidersAreCapital(s: string)
    requires IsProvider(s)
    ensures s != "" && AllCapital(s)
  {
  }

  lemma ProvidersAreNormal(h: Host, s: string)
    requires Sound(h) && IsProvider(s)
    ensures s != "" && CleanValue(s) && Strip(s) == s && Upper(h, s) == s
  {
    ProvidersAreCapital(s);
    UpperOfCapitals(h, s);
    StripOfStripped(IsSpace, s);
  }

  lemma NumbersAreClean(n: nat)
    ensures var s := NatText(n); s != "" && CleanValue(s) && Strip(s) == s
  {
    var s := NatText(n);
    assert forall i :: 0 <= i < |s| ==> IsDigit(s[i]);
    StripOfStripped(IsSpace, s);
  }

  lemma ListsAreClean(h: Host, raw: string)
    requires Sound(h) && NormalizedList(h.show, raw).Ok?
    ensures var s := NormalizedList(h.show, raw).value;
            s != "" && CleanValue(s) && Strip(s) == s && NormalizedList(h.show, s) == Ok(s)
  {
    ListSettingsSurvive(h.show, raw);
    var items := ItemsOf(h.show, Strip(raw)).value;
    J.DumpsIsPlain(items, J.Compact);
    var s := J.Dumps(items, J.Compact);
    assert CleanValue(s);
    StripOfStripped(IsSpace, s);
  }

  /** A text the rule leaves as it is. */
  predicate NormalFor(h: Host, r: Rule, x: string) {
    match r
    case KnownEnvironment => IsEnvironment(x) && Lower(x) == x
    case KnownProvider => IsProvider(x) && Upper(h, x) == x
    case BooleanField(_) => IsBoolean(x) && Lower(x) == x
    case OptionalBoolean(_, _) => IsBoolean(x) && Lower(x) == x
    case PositiveInteger(k) => IntegerOutcome(h, k, x) == Ok(Some(x))
    case OptionalInteger(k, _) => IntegerOutcome(h, k, x) == Ok(Some(x))
    case ListField(_) => NormalizedList(h.show, x) == Ok(x)
    case UppercaseLevel => Upper(h, x) == x
    case _ => true
  }

  /** What a rule writes is in its normal form, not blank, and fit for a line. */
  lemma WrittenIsNormal(h: Host, r: Rule, values: Values)
    requires Sound(h) && Proper(r) && CleanValues(values)
    requires Verdict(h, r, values).Ok? && Verdict(h, r, values).value.Some? && Target(r).Some?
    ensures var x := Verdict(h, r, values).value.value;
            && CleanValue(x) && Strip(x) == x && NormalFor(h, r, x)
            && (x == "" ==> r.UppercaseLevel? && Stated(values, LogLevel) == "")
  {
    hide IsBoolean, IsEnvironment, IsProvider, CleanValue, Sound;
    var x := Verdict(h, r, values).value.value;
    match r
    case KnownEnvironment => WordsAreNormal(x);
    case KnownProvider => ProvidersAreNormal(h, x);
    case BooleanField(_) => WordsAreNormal(x);
    case OptionalBoolean(_, _) => WordsAreNormal(x);
    case PositiveInteger(k) => IntegersAreNormal(h, k, x, Stated(values, k));
    case OptionalInteger(k, default) =>
      if Stated(values, k) == "" { DefaultIsNormal(h, k, x); } else { IntegersAreNormal(h, k, x, Stated(values, k)); }
    case ListField(k) => ListsAreClean(h, Stated(values, k));
    case UppercaseLevel => LevelIsNormal(h, values[LogLevel]);
  }

  lemma LevelIsNormal(h: Host, level: string)
    requires Sound(h) && CleanValue(level)
    ensures var x := Upper(h, level); CleanValue(x) && Strip(x) == x && Upper(h, x) == x
    ensures Upper(h, level) == "" ==> Strip(level) == ""
  {
    StripOfStripped(IsSpace, level);
    UpperIsClean(h, level);
    UpperTwice(h, level);
    StripOfStripped(IsSpace, Upper(h, level));
  }

  /** Once a rule has written, its verdict is what it wrote. */
  lemma VerdictStays(h: Host, r: Rule, values: Values, x: string)
    requires Target(r).Some? && values.Keys >= {Target(r).value} && values[Target(r).value] == x
    requires (x != "" || r.UppercaseLevel?) && Strip(x) == x && NormalFor(h, r, x)
    ensures Verdict(h, r, values) == Ok(Some(x))
  {
    assert Stated(values, Target(r).value) == x;
  }

  lemma IntegersAreNormal(h: Host, k: Key, x: string, raw: string)
    requires Sound(h) && IntegerOutcome(h, k, raw) == Ok(Some(x))
    ensures x != "" && CleanValue(x) && Strip(x) == x && IntegerOutcome(h, k, x) == Ok(Some(x))
  {
    var n := ReadInt(h, raw).value;
    NumbersAreClean(n);
    IntReadsBack(h, n);
  }

  lemma DefaultIsNormal(h: Host, k: Key, x: string)
    requires Sound(h) && (x == "587" || x == "10")
    ensures x != "" && CleanValue(x) && Strip(x) == x && IntegerOutcome(h, k, x) == Ok(Some(x))
  {
    DefaultsAreNumbers();
    var n := if x == "587" then 587 else 10;
    NumbersAreClean(n);
    IntReadsBack(h, n);
  }

  // ----- Applying the plan to its own result -----

  lemma {:induction false} NoProblemAtAll(h: Host, n: nat, values: Values)
    requires n <= |PLAN|
    ensures FirstProblem(h, n, values).None? <==> forall i :: 0 <= i < n ==> Verdict(h, PLAN[i], values).Ok?
  {
    if n == 0 {
    } else {
      NoProblemAtAll(h, n - 1, values);
    }
  }

  ghost predicate Accepted(h: Host, values: Values) {
    FirstProblem(h, |PLAN|, values).None?
  }

  lemma AcceptedVerdict(h: Host, values: Values, n: nat)
    requires Accepted(h, values) && n < |PLAN|
    ensures Verdict(h, PLAN[n], values).Ok?
  {
    NoProblemAtAll(h, |PLAN|, values);
  }

  /** What a key's rule has given it. */
  lemma GivenIsNormal(h: Host, values: Values, k: Key)
    requires Sound(h) && CleanValues(values) && Accepted(h, values)
    requires Given(h, values, k).Some?
    ensures var x := Given(h, values, k).value;
            && CleanValue(x) && Strip(x) == x && NormalFor(h, Owner(k).value, x)
            && (x == "" ==> Owner(k).value.UppercaseLevel? && Stated(values, k) == "")
            && Verdict(h, Owner(k).value, values) == Ok(Some(x))
  {
    OwnersAreInThePlan(k);
    PlanWritesOwnKeys(Turn(k));
    WrittenIsNormal(h, Owner(k).value, values);
  }

  lemma NormalisedIsClean(h: Host, values: Values)
    requires Sound(h) && CleanValues(values) && Accepted(h, values)
    ensures CleanValues(Normalised(h, values))
  {
    forall k | k in Normalised(h, values) ensures CleanValue(Normalised(h, values)[k]) {
      OwnersAreInThePlan(k);
      if Given(h, values, k).Some? {
        GivenIsNormal(h, values, k);
      } else if k in values {
        assert CleanValue(values[k]);
      }
    }
  }

  /** The values a second run starts from: those of the keys that have a line. */
  function SecondStart(h: Host, values: Values): Values {
    Restricted(Normalised(h, values), values.Keys)
  }

  lemma SecondLook(h: Host, values: Values, k: Key)
    ensures k in SecondStart(h, values) <==> k in values
    ensures k in values ==>
              SecondStart(h, values)[k] == if Given(h, values, k).Some? then Given(h, values, k).value else values[k]
  {
    OwnersAreInThePlan(k);
  }

  lemma OwnersReadTheirKey(k: Key)
    requires Owner(k).Some?
    ensures Reads(Owner(k).value) == {k}
  {
  }

  /** The owner of a key says of the new values what it said of the old ones. */
  lemma OwnersRepeatThemselves(h: Host, values: Values, k: Key)
    requires Sound(h) && CleanValues(values) && Accepted(h, values) && Owner(k).Some?
    ensures Verdict(h, Owner(k).value, SecondStart(h, values)) == Verdict(h, Owner(k).value, values)
  {
    hide Verdict, Owner, NormalFor, SecondStart;
    var r, w := Owner(k).value, SecondStart(h, values);
    OwnersAreInThePlan(k);
    OwnersReadTheirKey(k);
    SecondLook(h, values, k);
    AcceptedVerdict(h, values, Turn(k));
    if Given(h, values, k).Some? && k in values {
      GivenIsNormal(h, values, k);
      VerdictStays(h, r, w, Given(h, values, k).value);
    } else {
      VerdictFrame(h, r, w, values);
    }
  }

  lemma ChecksRepeatThemselves(h: Host, values: Values, n: nat)
    requires Sound(h) && CleanValues(values) && Accepted(h, values)
    requires n < |PLAN| && Target(PLAN[n]).None?
    ensures Verdict(h, PLAN[n], SecondStart(h, values)) == Verdict(h, PLAN[n], values)
  {
    var r, w := PLAN[n], SecondStart(h, values);
    AcceptedVerdict(h, values, n);
    if r.NonEmpty? {
      SecondLook(h, values, r.key);
      if Given(h, values, r.key).Some? { GivenIsNormal(h, values, r.key); }
    } else {
      forall k | k in Reads(r) ensures (k in w <==> k in values) && (k in values ==> w[k] == values[k]) {
        PlanReadsUnwrittenKeys(n, k);
        SecondLook(h, values, k);
      }
      VerdictFrame(h, r, w, values);
    }
  }

  lemma RulesRepeatThemselves(h: Host, values: Values, n: nat)
    requires Sound(h) && CleanValues(values) && Accepted(h, values) && n < |PLAN|
    ensures Verdict(h, PLAN[n], SecondStart(h, values)) == Verdict(h, PLAN[n], values)
  {
    if Target(PLAN[n]).Some? {
      PlanWritesOwnKeys(n);
      OwnersRepeatThemselves(h, values, Target(PLAN[n]).value);
    } else {
      ChecksRepeatThemselves(h, values, n);
    }
  }

  /** A second run accepts what the first one left, and arrives at the same values. */
  lemma NormalisingTwice(h: Host, values: Values)
    requires Sound(h) && CleanValues(values) && Accepted(h, values)
    ensures Accepted(h, SecondStart(h, values))
    ensures Normalised(h, SecondStart(h, values)) == Normalised(h, values)
  {
    var w := SecondStart(h, values);
    forall n | 0 <= n < |PLAN| ensures Verdict(h, PLAN[n], w).Ok? {
      RulesRepeatThemselves(h, values, n);
      AcceptedVerdict(h, values, n);
    }
    NoProblemAtAll(h, |PLAN|, w);
    forall k ensures Given(h, w, k) == Given(h, values, k) {
      if Owner(k).Some? { OwnersRepeatThemselves(h, values, k); }
    }
    forall k ensures k in values ==> w[k] == Normalised(h, values)[k] { SecondLook(h, values, k); }
    forall k ensures k in w <==> k in values { SecondLook(h, values, k); }
    ProviderIsGiven(h, values);
    assert w.Keys == values.Keys;
    SameNormalised(h, values, w);
  }

  lemma ProviderIsGiven(h: Host, values: Values)
    requires Accepted(h, values)
    ensures Given(h, values, EmailProvider).Some?
  {
    AcceptedVerdict(h, values, 11);
  }

  lemma SameNormalised(h: Host, values: Values, w: Values)
    requires w.Keys == values.Keys
    requires forall k :: Given(h, w, k) == Given(h, values, k)
    requires forall k :: k in values ==> w[k] == Normalised(h, values)[k]
    requires Given(h, values, EmailProvider).Some?
    ensures Normalised(h, w) == Normalised(h, values)
  {
    hide Given;
    forall k | k in Normalised(h, values) ensures Normalised(h, w)[k] == Normalised(h, values)[k] {
      if Turn(k) < |PLAN| && Given(h, values, k).Some? {
      } else {
        assert k in values;
      }
    }
  }

  // ----- The integers that are called required -----

  /** `REQUIRED_POSITIVE_INTEGER_FIELDS`. */
  predicate CalledRequired(k: Key) {
    k == HealthcheckTimeoutSeconds || k == ApprovalTokenTtlMinutes || k == JwtExpirationMinutes
  }

  /** Of the plan only the field's own rule looks at it. */
  lemma OnlyOwnRuleReads(n: nat, k: Key)
    requires CalledRequired(k) && n < |PLAN| && k in Reads(PLAN[n])
    ensures PLAN[n] == PositiveInteger(k)
  {
    PlanHasThreeParts(n);
    if Target(PLAN[n]).Some? {
      PlanWritesOwnKeys(n);
    } else if PLAN[n].NonEmpty? {
      TextsComeFirst(n);
    } else {
      ChecksReadUnownedKeys(PLAN[n], k);
    }
  }

  /** A field is as good as its line: the values are accepted exactly when they are accepted
      without the field, and the field is missing, blank, or a positive integer. */
  lemma CalledRequiredIsOptional(h: Host, values: Values, k: Key)
    requires CalledRequired(k)
    ensures Accepted(h, values) <==>
              && Accepted(h, values - {k})
              && (Stated(values, k) == "" || IntegerOutcome(h, k, Stated(values, k)).Ok?)
  {
    var without := values - {k};
    OwnersAreInThePlan(k);
    assert Strip("") == "";
    NoProblemAtAll(h, |PLAN|, values);
    NoProblemAtAll(h, |PLAN|, without);
    forall n | 0 <= n < |PLAN|
      ensures if n == Turn(k) then Verdict(h, PLAN[n], without).Ok?
              else Verdict(h, PLAN[n], without) == Verdict(h, PLAN[n], values)
    {
      if n != Turn(k) {
        if k in Reads(PLAN[n]) {
          OnlyOwnRuleReads(n, k);
          PlanWritesOwnKeys(n);
        }
        VerdictFrame(h, PLAN[n], without, values);
      }
    }
    assert PLAN[Turn(k)] == PositiveInteger(k);
  }

  /** What is written for the field holds something exactly when the original line did. */
  lemma CalledRequiredIsKept(h: Host, values: Values, k: Key)
    requires CalledRequired(k) && Accepted(h, values)
    ensures k in Normalised(h, values) <==> k in values
    ensures Stated(Normalised(h, values), k) != "" <==> Stated(values, k) != ""
  {
    OwnersAreInThePlan(k);
    AcceptedVerdict(h, values, Turn(k));
    assert Owner(k) == Some(PositiveInteger(k)) && k != EmailProvider;
    OwnVerdict(h, k, values);
    assert k in Normalised(h, values) ==>
             Normalised(h, values)[k] == if Given(h, values, k).Some? then Given(h, values, k).value else values[k];
    assert Strip("") == "";
    hide Owner, Turn, Verdict, Normalised, Given;
  }

  lemma OwnVerdict(h: Host, k: Key, values: Values)
    requires Verdict(h, PositiveInteger(k), values).Ok? && Owner(k) == Some(PositiveInteger(k))
    ensures Given(h, values, k).Some? <==> Stated(values, k) != ""
    ensures Given(h, values, k).Some? ==>
              Strip(Given(h, values, k).value) == Given(h, values, k).value != ""
  {
    if Stated(values, k) != "" { NumbersAreClean(ReadInt(h, Stated(values, k)).value); }
  }

  // ----- A host -----

  function AsciiUpper(c: char): string {
    if 'a' <= c <= 'z' then [(c as int - 32) as char] else [c]
  }

  function AsciiDigit(c: char): Option<nat> {
    if IsDigit(c) then Some(c as int - '0' as int) else None
  }

  function ShowTexts(j: J.Json): Option<J.Points> {
    if j.Text? then Some(j.points) else None
  }

  /** ASCII letters and digits, texts only, URLs always valid. */
  const ASCII_HOST := Host(AsciiUpper, AsciiDigit, ShowTexts, (_, _, _) => true, _ => true)

  lemma AsciiUpperIsTame(c: char)
    ensures var u := AsciiUpper(c);
            && u != "" && Upper(ASCII_HOST, u) == u
            && (IsSpace(c) ==> u == [c]) && (!IsSpace(c) ==> NoSpaces(u)) && ('A' <= c <= 'Z' ==> u == [c])
            && ('a' <= c <= 'z' ==> u == [(c as int - 32) as char])
  {
    var u := AsciiUpper(c);
    assert u[1..] == "" && AsciiUpper(u[0]) == u;
    assert u == [u[0]];
  }

  lemma AsciiDigitIsTame(c: char)
    ensures IsDigit(c) ==> AsciiDigit(c) == Some(c as int - '0' as int)
    ensures AsciiDigit(c).Some? ==> AsciiDigit(c).value < 10 && c != '_'
  {
  }

  lemma AsciiHostIsCased()
    ensures Cased(ASCII_HOST)
  {
    hide IsSpace, NoSpaces, AsciiUpper;
    forall c: char | 'a' <= c <= 'z' ensures ASCII_HOST.upper(c) == [(c as int - 32) as char] { AsciiUpperIsTame(c); }
    forall c: char | 'A' <= c <= 'Z' ensures ASCII_HOST.upper(c) == [c] { AsciiUpperIsTame(c); }
    forall c: char | IsSpace(c) ensures ASCII_HOST.upper(c) == [c] { AsciiUpperIsTame(c); }
    forall c: char | !IsSpace(c) ensures ASCII_HOST.upper(c) != "" && NoSpaces(ASCII_HOST.upper(c)) {
      AsciiUpperIsTame(c);
    }
    forall c: char ensures Upper(ASCII_HOST, ASCII_HOST.upper(c)) == ASCII_HOST.upper(c) { AsciiUpperIsTame(c); }
  }

  lemma AsciiHostIsNumbered()
    ensures Numbered(ASCII_HOST)
  {
    forall c: char { AsciiDigitIsTame(c); }
  }

  /** The facts assumed of a host can be had. */
  lemma AsciiHostIsSound()
    ensures Sound(ASCII_HOST)
  {
    AsciiHostIsCased();
    AsciiHostIsNumbered();
    hide Cased, Numbered;
  }
}
