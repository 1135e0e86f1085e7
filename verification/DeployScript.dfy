/** The deploy scripts as they run: loops over lines and fields, and a dictionary of values
    changed in place. */
module DeployScript {
  import opened Wrappers
  import opened PyText
  import opened Decimals
  import opened ListSettings
  import opened EnvFile
  import opened EnvRules
  import opened PrepareEnv
  import J = Json

  class EnvPath {
    var present: bool
    var text: string

    constructor (text: string)
      ensures present && this.text == text
    {
      present, this.text := true, text;
    }
  }

  /** The `values` dictionary. */
  class EnvValues {
    var items: Values

    constructor ()
      ensures items == map[]
    {
      items := map[];
    }
  }

  // ----- Loading and rewriting -----

  lemma OneMoreLine(lines: seq<string>, i: nat)
    requires i < |lines|
    ensures Entries(lines[..i + 1]) == Entries(lines[..i]) + [EntryOf(lines[i])]
    ensures ValuesOf(lines[..i + 1]) ==
            if IsRaw(lines[i]) then ValuesOf(lines[..i])
            else ValuesOf(lines[..i])[KeyOf(KeyText(lines[i])) := ValueText(lines[i])]
  {
    hide KeyText, ValueText, KeyOf;
    assert lines[..i + 1][..i] == lines[..i];
  }

  method LoadEnvFile(path: EnvPath) returns (r: Result<(seq<Entry>, EnvValues), EnvError>)
    ensures !path.present ==> r == Err(MissingFile)
    ensures path.present ==>
              && r.Ok? && fresh(r.value.1)
              && r.value.0 == Entries(SplitLines(path.text)) && r.value.1.items == ValuesOf(SplitLines(path.text))
  {
    hide KeyText, ValueText, KeyOf, SplitLines;
    if !path.present { return Err(MissingFile); }
    var lines := SplitLines(path.text);
    var entries: seq<Entry> := [];
    var values := new EnvValues();
    for i := 0 to |lines|
      invariant fresh(values)
      invariant entries == Entries(lines[..i]) && values.items == ValuesOf(lines[..i])
    {
      var line := lines[i];
      OneMoreLine(lines, i);
      if IsRaw(line) {
        entries := entries + [Raw(line)];
      } else {
        var key := KeyOf(KeyText(line));
        entries := entries + [Kv(key)];
        values.items := values.items[key := ValueText(line)];
      }
    }
    assert lines[..|lines|] == lines;
    return Ok((entries, values));
  }

  /** The manifest renderer's parser. */
  method ParseEnvFile(path: EnvPath) returns (r: Result<Values, EnvError>)
    ensures r == if path.present then Ok(ValuesOf(SplitLines(path.text))) else Err(MissingFile)
  {
    hide KeyText, ValueText, KeyOf, SplitLines;
    if !path.present { return Err(MissingFile); }
    var lines := SplitLines(path.text);
    var values: Values := map[];
    for i := 0 to |lines|
      invariant values == ValuesOf(lines[..i])
    {
      OneMoreLine(lines, i);
      if !IsRaw(lines[i]) {
        values := values[KeyOf(KeyText(lines[i])) := ValueText(lines[i])];
      }
    }
    assert lines[..|lines|] == lines;
    return Ok(values);
  }

  method RewriteEnvFile(path: EnvPath, entries: seq<Entry>, values: EnvValues)
    modifies path
    ensures path.present == old(path.present) && path.text == Rewritten(values.items, entries)
  {
    var lines: seq<string> := [];
    for i := 0 to |entries|
      invariant lines == RenderAll(values.items, entries[..i])
    {
      lines := lines + [Render(values.items, entries[i])];
    }
    assert entries[..|entries|] == entries;
    path.text := JoinLines(lines);
  }

  // ----- Single rules -----

  /** The values after a rule, or its complaint. */
  ghost predicate Applied(h: Host, rule: Rule, before: Values, after: Values, r: Outcome<EnvError>) {
    match Apply(h, rule, before)
    case Ok(expected) => r.Pass? && after == expected
    case Err(e) => r == Fail(e) && after == before
  }

  method RequireNonEmpty(values: EnvValues, key: Key) returns (r: Result<string, EnvError>)
    ensures r == if Stated(values.items, key) == "" then Err(Required(key)) else Ok(Stated(values.items, key))
  {
    var value := Strip(Lookup(values.items, key, ""));
    if value == "" { return Err(Required(key)); }
    return Ok(value);
  }

  method RequireText(h: Host, values: EnvValues, key: Key) returns (r: Outcome<EnvError>)
    ensures Applied(h, NonEmpty(key), values.items, values.items, r)
  {
    var required := RequireNonEmpty(values, key);
    r := if required.Err? then Fail(required.error) else Pass;
  }

  method ValidateEnvironment(h: Host, values: EnvValues) returns (r: Outcome<EnvError>)
    modifies values
    ensures Applied(h, KnownEnvironment, old(values.items), values.items, r)
  {
    var required := RequireNonEmpty(values, Environment);
    if required.Err? { return Fail(required.error); }
    var environment := Lower(required.value);
    if !IsEnvironment(environment) { return Fail(UnknownEnvironment); }
    values.items := values.items[Environment := environment];
    return Pass;
  }

  method NormalizeEmailProvider(h: Host, values: EnvValues) returns (r: Outcome<EnvError>)
    modifies values
    ensures Applied(h, KnownProvider, old(values.items), values.items, r)
  {
    var provider := Upper(h, Strip(Lookup(values.items, EmailProvider, "SMTP")));
    if provider == "" { provider := "SMTP"; }
    if !IsProvider(provider) { return Fail(UnknownProvider); }
    values.items := values.items[EmailProvider := provider];
    return Pass;
  }

  method NormalizeBoolean(h: Host, values: EnvValues, key: Key) returns (r: Outcome<EnvError>)
    modifies values
    ensures Applied(h, BooleanField(key), old(values.items), values.items, r)
  {
    var required := RequireNonEmpty(values, key);
    if required.Err? { return Fail(required.error); }
    var value := Lower(required.value);
    if !IsBoolean(value) { return Fail(NotBoolean(key)); }
    values.items := values.items[key := value];
    return Pass;
  }

  method NormalizeOptionalBoolean(h: Host, values: EnvValues, key: Key, default: string) returns (r: Outcome<EnvError>)
    modifies values
    ensures Applied(h, OptionalBoolean(key, default), old(values.items), values.items, r)
  {
    var value := Lower(Strip(Lookup(values.items, key, "")));
    if value == "" {
      if key in values.items { values.items := values.items[key := default]; }
      return Pass;
    }
    if !IsBoolean(value) { return Fail(NotBoolean(key)); }
    values.items := values.items[key := value];
    return Pass;
  }

  method NormalizePositiveInteger(h: Host, values: EnvValues, key: Key) returns (r: Outcome<EnvError>)
    modifies values
    ensures Applied(h, PositiveInteger(key), old(values.items), values.items, r)
  {
    var raw := Strip(Lookup(values.items, key, ""));
    if raw == "" { return Pass; }
    var number := ReadInt(h, raw);
    if number.None? { return Fail(NotInteger(key)); }
    if number.value <= 0 { return Fail(NotPositive(key)); }
    values.items := values.items[key := NatText(number.value)];
    return Pass;
  }

  method NormalizeOptionalPositiveInteger(h: Host, values: EnvValues, key: Key, default: string)
    returns (r: Outcome<EnvError>)
    modifies values
    ensures Applied(h, OptionalInteger(key, default), old(values.items), values.items, r)
  {
    var raw := Strip(Lookup(values.items, key, ""));
    if raw == "" {
      if key in values.items { values.items := values.items[key := default]; }
      return Pass;
    }
    r := NormalizePositiveInteger(h, values, key);
  }

  method ValidateDatabaseUrl(h: Host, values: EnvValues) returns (r: Outcome<EnvError>)
    ensures Applied(h, ValidDatabaseUrl, values.items, values.items, r)
  {
    var required := RequireNonEmpty(values, DatabaseUrl);
    if required.Err? { return Fail(required.error); }
    var url := required.value;
    if !("postgresql://" <= url || "postgresql+asyncpg://" <= url) { return Fail(WrongDatabaseScheme); }
    if !h.databaseOk(url, Lookup(values.items, ExpectedDatabaseName, "billing_service_db"),
                     Lookup(values.items, ExpectedDatabaseUsername, "billing_service_user"))
    {
      return Fail(WrongDatabase);
    }
    return Pass;
  }

  method ValidateAppBaseUrl(h: Host, values: EnvValues) returns (r: Outcome<EnvError>)
    ensures Applied(h, ValidBaseUrl, values.items, values.items, r)
  {
    var required := RequireNonEmpty(values, AppBaseUrl);
    if required.Err? { return Fail(required.error); }
    r := if h.baseUrlOk(required.value) then Pass else Fail(WrongBaseUrl);
  }

  lemma StrippedTwice(s: string)
    ensures Strip(Strip(s)) == Strip(s)
  {
    var i, j := StripIsSlice(IsSpace, s);
    StripOfStripped(IsSpace, Strip(s));
  }

  lemma ListVerdict(h: Host, values: Values, key: Key)
    ensures var s := Stated(values, key);
            Verdict(h, ListField(key), values) ==
            if s == "" then Err(Required(key))
            else
              match ItemsOf(h.show, s)
              case Err(problem) => Err(WrongList(key, problem))
              case Ok(items) => if items == [] then Err(WrongList(key, NoItems))
                else Ok(Some(J.Dumps(items, J.Compact)))
  {
    hide ItemsOf;
    StrippedTwice(Lookup(values, key, ""));
    if Stated(values, key) != "" { ItemsComplaints(h.show, Stated(values, key)); }
  }

  lemma ItemsComplaints(show: Show, s: string)
    requires s != ""
    ensures ItemsOf(show, s) != Err(Empty)
  {
  }

  method NormalizeListField(h: Host, values: EnvValues, key: Key) returns (r: Outcome<EnvError>)
    modifies values
    ensures Applied(h, ListField(key), old(values.items), values.items, r)
  {
    hide Verdict, ItemsOf, J.Dumps, Strip;
    ListVerdict(h, values.items, key);
    var required := RequireNonEmpty(values, key);
    if required.Err? { return Fail(required.error); }
    var items := ItemsOf(h.show, required.value);
    if items.Err? { return Fail(WrongList(key, items.error)); }
    if items.value == [] { return Fail(WrongList(key, NoItems)); }
    values.items := values.items[key := J.Dumps(items.value, J.Compact)];
    return Pass;
  }

  method RequireAny(h: Host, values: EnvValues, keys: seq<Key>, what: string) returns (r: Outcome<EnvError>)
    ensures Applied(h, AnyOf(keys, what), values.items, values.items, r)
  {
    for i := 0 to |keys|
      invariant forall j :: 0 <= j < i ==> Stated(values.items, keys[j]) == ""
    {
      if Strip(Lookup(values.items, keys[i], "")) != "" {
        assert keys[i] in keys && Stated(values.items, keys[i]) != "";
        return Pass;
      }
    }
    return Fail(NoneOf(keys, what));
  }

  method UppercaseLogLevel(h: Host, values: EnvValues) returns (r: Outcome<EnvError>)
    modifies values
    ensures Applied(h, UppercaseLevel, old(values.items), values.items, r)
  {
    if LogLevel !in values.items { return Fail(Required(LogLevel)); }
    values.items := values.items[LogLevel := Upper(h, values.items[LogLevel])];
    return Pass;
  }

  // ----- The script -----

  const REQUIRED_BOOLEAN_FIELDS: seq<Key> := [LogJson]
  const OPTIONAL_BOOLEAN_DEFAULTS: seq<(Key, string)> := [(SmtpUseTls, "false"), (SmtpUseAuth, "false")]
  const REQUIRED_POSITIVE_INTEGER_FIELDS: seq<Key> :=
    [HealthcheckTimeoutSeconds, ApprovalTokenTtlMinutes, JwtExpirationMinutes]
  const OPTIONAL_POSITIVE_INTEGER_DEFAULTS: seq<(Key, string)> := [(SmtpPort, "587"), (SmtpTimeoutSeconds, "10")]

  /** The given rules have been applied, in order, up to the first complaint. */
  ghost predicate Ran(h: Host, rules: seq<Rule>, before: Values, after: Values, r: Outcome<EnvError>) {
    match RunRules(h, rules, before)
    case Ok(expected) => r.Pass? && after == expected
    case Err(e) => r == Fail(e)
  }

  /** One more rule, after rules that have passed. */
  lemma RanOneMore(h: Host, rules: seq<Rule>, rule: Rule, start: Values, before: Values, after: Values,
                   r: Outcome<EnvError>)
    requires Ran(h, rules, start, before, Pass) && Applied(h, rule, before, after, r)
    ensures Ran(h, rules + [rule], start, after, r)
  {
    hide Apply;
    assert (rules + [rule])[..|rules|] == rules;
  }

  /** More rules, after rules that have passed. */
  lemma {:induction false} RanMore(h: Host, rules: seq<Rule>, more: seq<Rule>, start: Values, before: Values,
                                   after: Values, r: Outcome<EnvError>)
    requires Ran(h, rules, start, before, Pass) && Ran(h, more, before, after, r)
    ensures Ran(h, rules + more, start, after, r)
  {
    hide Apply;
    var all := rules + more;
    if more == [] {
      assert all == rules;
    } else {
      var front := more[..|more| - 1];
      assert all[..|all| - 1] == rules + front;
      match RunRules(h, front, before)
      case Ok(mid) => RanMore(h, rules, front, start, before, mid, Pass);
      case Err(e) => RanMore(h, rules, front, start, before, after, Fail(e));
    }
  }

  /** A complaint stands, whatever rules would have followed. */
  lemma {:induction false} ComplaintsStick(h: Host, rules: seq<Rule>, more: seq<Rule>, start: Values, after: Values,
                                           r: Outcome<EnvError>)
    requires Ran(h, rules, start, after, r) && r.Fail?
    ensures Ran(h, rules + more, start, after, r)
  {
    hide Apply;
    var all := rules + more;
    if more == [] {
      assert all == rules;
    } else {
      assert all[..|all| - 1] == rules + more[..|more| - 1];
      ComplaintsStick(h, rules, more[..|more| - 1], start, after, r);
    }
  }

  lemma NextInPlan(h: Host, n: nat, i: nat, start: Values, before: Values, after: Values, r: Outcome<EnvError>)
    requires n <= i < |PLAN| && Ran(h, PLAN[n..i], start, before, Pass) && Applied(h, PLAN[i], before, after, r)
    ensures Ran(h, PLAN[n..i + 1], start, after, r)
  {
    hide RunRules, Apply;
    RanOneMore(h, PLAN[n..i], PLAN[i], start, before, after, r);
    assert PLAN[n..i] + [PLAN[i]] == PLAN[n..i + 1];
  }

  lemma EndsEarly(h: Host, n: nat, i: nat, m: nat, start: Values, after: Values, r: Outcome<EnvError>)
    requires n <= i <= m <= |PLAN| && Ran(h, PLAN[n..i], start, after, r) && r.Fail?
    ensures Ran(h, PLAN[n..m], start, after, r)
  {
    hide RunRules, Apply;
    ComplaintsStick(h, PLAN[n..i], PLAN[i..m], start, after, r);
    assert PLAN[n..i] + PLAN[i..m] == PLAN[n..m];
  }

  lemma NextPart(h: Host, i: nat, m: nat, start: Values, before: Values, after: Values, r: Outcome<EnvError>)
    requires i <= m <= |PLAN| && Ran(h, PLAN[..i], start, before, Pass) && Ran(h, PLAN[i..m], before, after, r)
    ensures Ran(h, PLAN[..m], start, after, r)
  {
    hide RunRules, Apply;
    RanMore(h, PLAN[..i], PLAN[i..m], start, before, after, r);
    assert PLAN[..i] + PLAN[i..m] == PLAN[..m];
  }

  lemma NothingRan(h: Host, n: nat, values: Values)
    requires n <= |PLAN|
    ensures Ran(h, PLAN[n..n], values, values, Pass)
  {
    assert PLAN[n..n] == [];
  }

  method ValidateRequiredTextFields(h: Host, values: EnvValues) returns (r: Outcome<EnvError>)
    ensures Ran(h, PLAN[0..10], values.items, values.items, r)
  {
    hide RunRules, Apply, Ran;
    ghost var start := values.items;
    NothingRan(h, 0, start);
    for i := 0 to |REQUIRED_TEXT_FIELDS|
      invariant Ran(h, PLAN[0..i], start, values.items, Pass)
    {
      r := RequireText(h, values, REQUIRED_TEXT_FIELDS[i]);
      TextsComeFirst(i);
      NextInPlan(h, 0, i, start, values.items, values.items, r);
      if r.Fail? {
        EndsEarly(h, 0, i + 1, 10, start, values.items, r);
        return;
      }
    }
    r := Pass;
  }

  /** Environment and e-mail provider. */
  method ValidateChoices(h: Host, values: EnvValues) returns (r: Outcome<EnvError>)
    modifies values
    ensures Ran(h, PLAN[10..12], old(values.items), values.items, r)
  {
    hide RunRules, Apply, Ran;
    ghost var start := values.items;
    NothingRan(h, 10, start);
    ghost var before;
    before := values.items;
    r := ValidateEnvironment(h, values);
    NextInPlan(h, 10, 10, start, before, values.items, r);
    if r.Fail? {
      EndsEarly(h, 10, 11, 12, start, values.items, r);
      return;
    }
    before := values.items;
    r := NormalizeEmailProvider(h, values);
    NextInPlan(h, 10, 11, start, before, values.items, r);
  }

  method NormalizeBooleans(h: Host, values: EnvValues) returns (r: Outcome<EnvError>)
    modifies values
    ensures Ran(h, PLAN[12..15], old(values.items), values.items, r)
  {
    hide RunRules, Apply, Ran;
    ghost var start := values.items;
    NothingRan(h, 12, start);
    for i := 0 to |REQUIRED_BOOLEAN_FIELDS|
      invariant Ran(h, PLAN[12..12 + i], start, values.items, Pass)
    {
      ghost var before := values.items;
      r := NormalizeBoolean(h, values, REQUIRED_BOOLEAN_FIELDS[i]);
      assert PLAN[12 + i] == BooleanField(REQUIRED_BOOLEAN_FIELDS[i]);
      NextInPlan(h, 12, 12 + i, start, before, values.items, r);
      if r.Fail? {
        EndsEarly(h, 12, 12 + i + 1, 15, start, values.items, r);
        return;
      }
    }
    for i := 0 to |OPTIONAL_BOOLEAN_DEFAULTS|
      invariant Ran(h, PLAN[12..13 + i], start, values.items, Pass)
    {
      ghost var before := values.items;
      var (key, default) := OPTIONAL_BOOLEAN_DEFAULTS[i];
      r := NormalizeOptionalBoolean(h, values, key, default);
      assert PLAN[13 + i] == OptionalBoolean(key, default);
      NextInPlan(h, 12, 13 + i, start, before, values.items, r);
      if r.Fail? {
        EndsEarly(h, 12, 13 + i + 1, 15, start, values.items, r);
        return;
      }
    }
    r := Pass;
  }

  method NormalizeIntegers(h: Host, values: EnvValues) returns (r: Outcome<EnvError>)
    modifies values
    ensures Ran(h, PLAN[15..20], old(values.items), values.items, r)
  {
    hide RunRules, Apply, Ran;
    ghost var start := values.items;
    NothingRan(h, 15, start);
    for i := 0 to |REQUIRED_POSITIVE_INTEGER_FIELDS|
      invariant Ran(h, PLAN[15..15 + i], start, values.items, Pass)
    {
      ghost var before := values.items;
      r := NormalizePositiveInteger(h, values, REQUIRED_POSITIVE_INTEGER_FIELDS[i]);
      assert PLAN[15 + i] == PositiveInteger(REQUIRED_POSITIVE_INTEGER_FIELDS[i]);
      NextInPlan(h, 15, 15 + i, start, before, values.items, r);
      if r.Fail? {
        EndsEarly(h, 15, 15 + i + 1, 20, start, values.items, r);
        return;
      }
    }
    for i := 0 to |OPTIONAL_POSITIVE_INTEGER_DEFAULTS|
      invariant Ran(h, PLAN[15..18 + i], start, values.items, Pass)
    {
      ghost var before := values.items;
      var (key, default) := OPTIONAL_POSITIVE_INTEGER_DEFAULTS[i];
      r := NormalizeOptionalPositiveInteger(h, values, key, default);
      assert PLAN[18 + i] == OptionalInteger(key, default);
      NextInPlan(h, 15, 18 + i, start, before, values.items, r);
      if r.Fail? {
        EndsEarly(h, 15, 18 + i + 1, 20, start, values.items, r);
        return;
      }
    }
    r := Pass;
  }

  method ValidateUrls(h: Host, values: EnvValues) returns (r: Outcome<EnvError>)
    ensures Ran(h, PLAN[20..22], values.items, values.items, r)
  {
    hide RunRules, Apply, Ran;
    ghost var start := values.items;
    NothingRan(h, 20, start);
    ghost var before;
    before := values.items;
    r := ValidateDatabaseUrl(h, values);
    NextInPlan(h, 20, 20, start, before, values.items, r);
    if r.Fail? {
      EndsEarly(h, 20, 21, 22, start, values.items, r);
      return;
    }
    before := values.items;
    r := ValidateAppBaseUrl(h, values);
    NextInPlan(h, 20, 21, start, before, values.items, r);
  }

  method NormalizeLists(h: Host, values: EnvValues) returns (r: Outcome<EnvError>)
    modifies values
    ensures Ran(h, PLAN[22..24], old(values.items), values.items, r)
  {
    hide RunRules, Apply, Ran;
    ghost var start := values.items;
    NothingRan(h, 22, start);
    ghost var before;
    before := values.items;
    r := NormalizeListField(h, values, CorsAllowedOrigins);
    NextInPlan(h, 22, 22, start, before, values.items, r);
    if r.Fail? {
      EndsEarly(h, 22, 23, 24, start, values.items, r);
      return;
    }
    before := values.items;
    r := NormalizeListField(h, values, TrustedHosts);
    NextInPlan(h, 22, 23, start, before, values.items, r);
  }

  method ValidateSecretContract(h: Host, values: EnvValues) returns (r: Outcome<EnvError>)
    ensures Ran(h, PLAN[24..27], values.items, values.items, r)
  {
    hide RunRules, Apply, Ran;
    ghost var start := values.items;
    NothingRan(h, 24, start);
    ghost var before;
    before := values.items;
    r := RequireAny(h, values, APPROVAL_SECRET.keys, APPROVAL_SECRET.what);
    NextInPlan(h, 24, 24, start, before, values.items, r);
    if r.Fail? {
      EndsEarly(h, 24, 25, 27, start, values.items, r);
      return;
    }
    before := values.items;
    r := RequireAny(h, values, JWT_SECRET.keys, JWT_SECRET.what);
    NextInPlan(h, 24, 25, start, before, values.items, r);
    if r.Fail? {
      EndsEarly(h, 24, 26, 27, start, values.items, r);
      return;
    }
    before := values.items;
    r := RequireAny(h, values, CUSTOMER_SECRET.keys, CUSTOMER_SECRET.what);
    NextInPlan(h, 24, 26, start, before, values.items, r);
  }

  method PrepareValues(h: Host, values: EnvValues) returns (r: Outcome<EnvError>)
    modifies values
    ensures Ran(h, PLAN, old(values.items), values.items, r)
  {
    hide RunRules, Apply, Ran;
    ghost var start, before := values.items, values.items;
    r := ValidateRequiredTextFields(h, values);
    if r.Fail? { FullPlan(h, 10, start, values.items, r); return; }
    before := values.items;
    r := ValidateChoices(h, values);
    NextPart(h, 10, 12, start, before, values.items, r);
    if r.Fail? { FullPlan(h, 12, start, values.items, r); return; }
    before := values.items;
    r := NormalizeBooleans(h, values);
    NextPart(h, 12, 15, start, before, values.items, r);
    if r.Fail? { FullPlan(h, 15, start, values.items, r); return; }
    before := values.items;
    r := NormalizeIntegers(h, values);
    NextPart(h, 15, 20, start, before, values.items, r);
    if r.Fail? { FullPlan(h, 20, start, values.items, r); return; }
    before := values.items;
    r := ValidateUrls(h, values);
    NextPart(h, 20, 22, start, before, values.items, r);
    if r.Fail? { FullPlan(h, 22, start, values.items, r); return; }
    before := values.items;
    r := NormalizeLists(h, values);
    NextPart(h, 22, 24, start, before, values.items, r);
    if r.Fail? { FullPlan(h, 24, start, values.items, r); return; }
    before := values.items;
    r := ValidateSecretContract(h, values);
    NextPart(h, 24, 27, start, before, values.items, r);
    if r.Fail? { FullPlan(h, 27, start, values.items, r); return; }
    before := values.items;
    r := UppercaseLogLevel(h, values);
    NextInPlan(h, 0, 27, start, before, values.items, r);
    FullPlan(h, 28, start, values.items, r);
  }

  lemma FullPlan(h: Host, n: nat, start: Values, after: Values, r: Outcome<EnvError>)
    requires n <= |PLAN| && Ran(h, PLAN[..n], start, after, r) && (r.Fail? || n == |PLAN|)
    ensures Ran(h, PLAN, start, after, r)
  {
    hide RunRules, Apply;
    assert PLAN[..|PLAN|] == PLAN && PLAN[0..n] == PLAN[..n];
    if r.Fail? { EndsEarly(h, 0, n, |PLAN|, start, after, r); }
    assert PLAN[0..|PLAN|] == PLAN;
  }

  /** `prepare_env`: the file is rewritten if everything passes, and left alone otherwise. */
  method PrepareEnvFile(h: Host, path: EnvPath) returns (r: Outcome<EnvError>)
    modifies path
    ensures path.present == old(path.present)
    ensures !old(path.present) ==> r == Fail(MissingFile) && path.text == old(path.text)
    ensures old(path.present) ==>
              match PreparedText(h, old(path.text))
              case Ok(text) => r.Pass? && path.text == text
              case Err(e) => r == Fail(e) && path.text == old(path.text)
  {
    hide RunRules, Rewritten, ValuesOf, SplitLines;
    var loaded := LoadEnvFile(path);
    if loaded.Err? { return Fail(loaded.error); }
    var (entries, values) := loaded.value;
    :- PrepareValues(h, values);
    RewriteEnvFile(path, entries, values);
    return Pass;
  }
}
