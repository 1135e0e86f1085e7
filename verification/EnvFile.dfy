/** Env files as texts: lines, entries, and the way back. */
module EnvFile {
  import opened PyText

  // ----- Keys -----

  /** The keys the deploy script knows, and any other text. */
  datatype Key =
    | AppName | AppVersion | Environment | LogLevel | LogJson | DatabaseUrl | AppBaseUrl
    | CorsAllowedOrigins | TrustedHosts | JwtAlgorithm
    | EmailProvider | SmtpUseTls | SmtpUseAuth | SmtpPort | SmtpTimeoutSeconds
    | HealthcheckTimeoutSeconds | ApprovalTokenTtlMinutes | JwtExpirationMinutes
    | ExpectedDatabaseName | ExpectedDatabaseUsername
    | ApprovalTokenSecret | ApprovalTokenSecretFile | JwtSecret | JwtSecretFile
    | CustomerJwtSecret | CustomerJwtSecretFile
    | OtherKey(text: string)

  function KeyName(k: Key): string {
    match k
    case AppName => "APP_NAME"
    case AppVersion => "APP_VERSION"
    case Environment => "ENVIRONMENT"
    case LogLevel => "LOG_LEVEL"
    case LogJson => "LOG_JSON"
    case DatabaseUrl => "DATABASE_URL"
    case AppBaseUrl => "APP_BASE_URL"
    case CorsAllowedOrigins => "CORS_ALLOWED_ORIGINS"
    case TrustedHosts => "TRUSTED_HOSTS"
    case JwtAlgorithm => "JWT_ALGORITHM"
    case EmailProvider => "EMAIL_PROVIDER"
    case SmtpUseTls => "SMTP_USE_TLS"
    case SmtpUseAuth => "SMTP_USE_AUTH"
    case SmtpPort => "SMTP_PORT"
    case SmtpTimeoutSeconds => "SMTP_TIMEOUT_SECONDS"
    case HealthcheckTimeoutSeconds => "HEALTHCHECK_TIMEOUT_SECONDS"
    case ApprovalTokenTtlMinutes => "APPROVAL_TOKEN_TTL_MINUTES"
    case JwtExpirationMinutes => "JWT_EXPIRATION_MINUTES"
    case ExpectedDatabaseName => "EXPECTED_DATABASE_NAME"
    case ExpectedDatabaseUsername => "EXPECTED_DATABASE_USERNAME"
    case ApprovalTokenSecret => "APPROVAL_TOKEN_SECRET"
    case ApprovalTokenSecretFile => "APPROVAL_TOKEN_SECRET_FILE"
    case JwtSecret => "JWT_SECRET"
    case JwtSecretFile => "JWT_SECRET_FILE"
    case CustomerJwtSecret => "CUSTOMER_JWT_SECRET"
    case CustomerJwtSecretFile => "CUSTOMER_JWT_SECRET_FILE"
    case OtherKey(text) => text
  }

  const KNOWN_KEYS: seq<Key> :=
    [AppName, AppVersion, Environment, LogLevel, LogJson, DatabaseUrl, AppBaseUrl, CorsAllowedOrigins,
     TrustedHosts, JwtAlgorithm, EmailProvider, SmtpUseTls, SmtpUseAuth, SmtpPort, SmtpTimeoutSeconds,
     HealthcheckTimeoutSeconds, ApprovalTokenTtlMinutes, JwtExpirationMinutes, ExpectedDatabaseName,
     ExpectedDatabaseUsername, ApprovalTokenSecret, ApprovalTokenSecretFile, JwtSecret, JwtSecretFile,
     CustomerJwtSecret, CustomerJwtSecretFile]

  /** The key a text names. */
  function KeyOf(text: string): (k: Key)
    ensures KeyName(k) == text
  {
    KeyAmong(KNOWN_KEYS, text)
  }

  function KeyAmong(known: seq<Key>, text: string): (k: Key)
    ensures KeyName(k) == text
  {
    if known == [] then OtherKey(text)
    else if KeyName(known[0]) == text then known[0]
    else KeyAmong(known[1..], text)
  }

  /** Length, first and last character of each known name tell them apart. */
  function Shape(k: Key): (nat, char, char)
    requires !k.OtherKey?
  {
    match k
    case AppName => (8, 'A', 'E')
    case AppVersion => (11, 'A', 'N')
    case Environment => (11, 'E', 'T')
    case LogLevel => (9, 'L', 'L')
    case LogJson => (8, 'L', 'N')
    case DatabaseUrl => (12, 'D', 'L')
    case AppBaseUrl => (12, 'A', 'L')
    case CorsAllowedOrigins => (20, 'C', 'S')
    case TrustedHosts => (13, 'T', 'S')
    case JwtAlgorithm => (13, 'J', 'M')
    case EmailProvider => (14, 'E', 'R')
    case SmtpUseTls => (12, 'S', 'S')
    case SmtpUseAuth => (13, 'S', 'H')
    case SmtpPort => (9, 'S', 'T')
    case SmtpTimeoutSeconds => (20, 'S', 'S')
    case HealthcheckTimeoutSeconds => (27, 'H', 'S')
    case ApprovalTokenTtlMinutes => (26, 'A', 'S')
    case JwtExpirationMinutes => (22, 'J', 'S')
    case ExpectedDatabaseName => (22, 'E', 'E')
    case ExpectedDatabaseUsername => (26, 'E', 'E')
    case ApprovalTokenSecret => (21, 'A', 'T')
    case ApprovalTokenSecretFile => (26, 'A', 'E')
    case JwtSecret => (10, 'J', 'T')
    case JwtSecretFile => (15, 'J', 'E')
    case CustomerJwtSecret => (19, 'C', 'T')
    case CustomerJwtSecretFile => (24, 'C', 'E')
  }

  lemma ShapeOfName(k: Key)
    requires !k.OtherKey?
    ensures var name := KeyName(k); name != "" && Shape(k) == (|name|, name[0], name[|name| - 1])
  {
  }

  lemma NamesAreDistinct(a: Key, b: Key)
    requires !a.OtherKey? && !b.OtherKey? && KeyName(a) == KeyName(b)
    ensures a == b
  {
    ShapeOfName(a);
    ShapeOfName(b);
    ShapesAreDistinct(a, b);
  }

  lemma ShapesAreDistinct(a: Key, b: Key)
    requires !a.OtherKey? && !b.OtherKey? && Shape(a) == Shape(b)
    ensures a == b
  {
  }

  lemma {:induction false} KeyAmongFinds(known: seq<Key>, k: Key)
    requires k in known && forall i :: 0 <= i < |known| ==> !known[i].OtherKey?
    ensures KeyAmong(known, KeyName(k)) == k
  {
    if KeyName(known[0]) == KeyName(k) {
      NamesAreDistinct(known[0], k);
    } else {
      KeyAmongFinds(known[1..], k);
    }
  }

  /** Every known name is recognised. */
  lemma KnownNamesRoundTrip(k: Key)
    requires !k.OtherKey?
    ensures KeyOf(KeyName(k)) == k
  {
    assert k in KNOWN_KEYS;
    KeyAmongFinds(KNOWN_KEYS, k);
  }

  type Values = map<Key, string>

  // ----- Lines -----

  /** Where `str.splitlines` breaks; every such character is a blank. */
  predicate IsBreak(c: char) {
    var p := c as int;
    0x0A <= p <= 0x0D || 0x1C <= p <= 0x1E || p == 0x85 || p == 0x2028 || p == 0x2029
  }

  predicate Unbroken(s: string) {
    forall i :: 0 <= i < |s| ==> !IsBreak(s[i])
  }

  /** The length of the first line. */
  function LineEnd(s: string): (n: nat)
    ensures n <= |s| && Unbroken(s[..n]) && (n < |s| ==> IsBreak(s[n]))
  {
    if s == "" || IsBreak(s[0]) then 0
    else
      var n := LineEnd(s[1..]);
      assert s[..n + 1] == [s[0]] + s[1..][..n];
      n + 1
  }

  /** Reading in text mode and `splitlines`: CR LF is one break, a last line needs none. */
  function SplitLines(s: string): seq<string>
    decreases |s|
  {
    if s == "" then []
    else
      var n := LineEnd(s);
      if n == |s| then [s]
      else
        var next := if s[n] == '\r' && n + 1 < |s| && s[n + 1] == '\n' then n + 2 else n + 1;
        [s[..n]] + SplitLines(s[next..])
  }

  /** `"\n".join(lines) + "\n"`. */
  function JoinLines(lines: seq<string>): string {
    if lines == [] then "\n"
    else lines[0] + ("\n" + if |lines| == 1 then "" else JoinLines(lines[1..]))
  }

  ghost predicate AllUnbroken(lines: seq<string>) {
    forall i :: 0 <= i < |lines| ==> Unbroken(lines[i])
  }

  lemma {:induction false} SplitLinesAreUnbroken(s: string)
    ensures AllUnbroken(SplitLines(s))
    decreases |s|
  {
    if s == "" {
    } else {
      var n := LineEnd(s);
      if n < |s| {
        var next := if s[n] == '\r' && n + 1 < |s| && s[n + 1] == '\n' then n + 2 else n + 1;
        SplitLinesAreUnbroken(s[next..]);
      } else {
        assert s[..n] == s;
      }
    }
  }

  lemma {:induction false} LineEndIs(line: string, rest: string)
    requires Unbroken(line)
    ensures LineEnd(line + ("\n" + rest)) == |line|
  {
    var s := line + ("\n" + rest);
    if line == "" {
    } else {
      assert s[0] == line[0] && s[1..] == line[1..] + ("\n" + rest);
      LineEndIs(line[1..], rest);
    }
  }

  lemma FirstLine(line: string, rest: string)
    requires Unbroken(line)
    ensures SplitLines(line + ("\n" + rest)) == [line] + SplitLines(rest)
  {
    var s := line + ("\n" + rest);
    LineEndIs(line, rest);
    assert s[..|line|] == line && s[|line|] == '\n' && s[|line| + 1..] == rest;
  }

  /** Written lines are read back one by one. */
  lemma {:induction false} LinesReadBack(lines: seq<string>)
    requires lines != [] && AllUnbroken(lines)
    ensures SplitLines(JoinLines(lines)) == lines
  {
    assert Unbroken(lines[0]);
    if |lines| == 1 {
      FirstLine(lines[0], "");
      assert lines == [lines[0]];
    } else {
      LinesReadBack(lines[1..]);
      FirstLine(lines[0], JoinLines(lines[1..]));
    }
  }

  // ----- Entries -----

  datatype Entry = Raw(line: string) | Kv(key: Key)

  /** The position of the first `=`, or the length of the text. */
  function Equals(s: string): (n: nat)
    ensures n <= |s| && (n < |s| ==> s[n] == '=')
    ensures forall i :: 0 <= i < n ==> s[i] != '='
  {
    if s == "" || s[0] == '=' then 0 else 1 + Equals(s[1..])
  }

  predicate IsRaw(line: string) {
    var stripped := Strip(line);
    stripped == "" || stripped[0] == '#' || Equals(line) == |line|
  }

  function KeyText(line: string): string {
    Strip(line[..Equals(line)])
  }

  function ValueText(line: string): string
    requires Equals(line) < |line|
  {
    Strip(line[Equals(line) + 1..])
  }

  function EntryOf(line: string): Entry {
    if IsRaw(line) then Raw(line) else Kv(KeyOf(KeyText(line)))
  }

  function Entries(lines: seq<string>): (r: seq<Entry>)
    ensures |r| == |lines|
    ensures forall i :: 0 <= i < |lines| ==> r[i] == EntryOf(lines[i])
  {
    seq(|lines|, i requires 0 <= i < |lines| => EntryOf(lines[i]))
  }

  /** The last line of a key decides its value. */
  function ValuesOf(lines: seq<string>): Values {
    if lines == [] then map[]
    else
      var front, last := ValuesOf(lines[..|lines| - 1]), lines[|lines| - 1];
      if IsRaw(last) then front else front[KeyOf(KeyText(last)) := ValueText(last)]
  }

  function Render(values: Values, e: Entry): string {
    match e
    case Raw(line) => line
    case Kv(key) => KeyName(key) + "=" + if key in values then values[key] else ""
  }

  function RenderAll(values: Values, entries: seq<Entry>): (r: seq<string>)
    ensures |r| == |entries|
    ensures forall i :: 0 <= i < |entries| ==> r[i] == Render(values, entries[i])
  {
    seq(|entries|, i requires 0 <= i < |entries| => Render(values, entries[i]))
  }

  /** `rewrite_env_file`: the new text of the file. */
  function Rewritten(values: Values, entries: seq<Entry>): string {
    JoinLines(RenderAll(values, entries))
  }

  // ----- A rewritten file is read back -----

  /** Fit to be the value part of a line. */
  predicate CleanValue(v: string) {
    Unbroken(v) && Stripped(IsSpace, v)
  }

  ghost predicate CleanValues(values: Values) {
    forall k :: k in values ==> CleanValue(values[k])
  }

  /** Fit to be the key part of a line. */
  predicate CleanKey(name: string) {
    && Unbroken(name) && Stripped(IsSpace, name) && Equals(name) == |name|
    && (name != "" ==> name[0] != '#')
  }

  lemma UnbrokenSlice(s: string, i: nat, j: nat)
    requires Unbroken(s) && i <= j <= |s|
    ensures Unbroken(s[i..j])
  {
  }

  lemma StripKeepsUnbroken(s: string)
    requires Unbroken(s)
    ensures CleanValue(Strip(s))
  {
    var i, j := StripIsSlice(IsSpace, s);
    UnbrokenSlice(s, i, j);
  }

  lemma ValueTextIsClean(line: string)
    requires Unbroken(line) && !IsRaw(line)
    ensures CleanValue(ValueText(line))
  {
    var n := Equals(line);
    UnbrokenSlice(line, n + 1, |line|);
    StripKeepsUnbroken(line[n + 1..]);
  }

  /** The first character of a stripped text comes after blanks only. */
  lemma StripStart(s: string) returns (i: nat)
    requires Strip(s) != ""
    ensures i < |s| && s[i] == Strip(s)[0] && !IsSpace(s[i]) && forall k :: 0 <= k < i ==> IsSpace(s[k])
  {
    var j;
    i, j := StripIsSlice(IsSpace, s);
    assert Strip(s)[0] == s[i];
  }

  lemma SameStart(s: string, n: nat, a: nat, b: nat)
    requires a < n <= |s| && !IsSpace(s[..n][a]) && forall k :: 0 <= k < a ==> IsSpace(s[..n][k])
    requires b < |s| && !IsSpace(s[b]) && forall k :: 0 <= k < b ==> IsSpace(s[k])
    ensures a == b
  {
    assert s[..n][a] == s[a];
    if b < n { assert s[..n][b] == s[b]; }
  }

  lemma KeyTextIsClean(line: string)
    requires Unbroken(line) && !IsRaw(line)
    ensures CleanKey(KeyText(line))
  {
    var front := line[..Equals(line)];
    UnbrokenSlice(line, 0, Equals(line));
    StripKeepsUnbroken(front);
    var i, j := StripIsSlice(IsSpace, front);
    var name := KeyText(line);
    assert name == front[i..j];
    forall k | 0 <= k < |name| ensures name[k] != '=' { assert name[k] == line[i + k]; }
    if name != "" {
      var a := StripStart(front);
      var b := StripStart(line);
      SameStart(line, Equals(line), a, b);
    }
  }

  lemma RenderedLine(name: string, value: string)
    requires CleanKey(name) && CleanValue(value)
    ensures var line := name + "=" + value;
            && Unbroken(line) && !IsRaw(line) && KeyText(line) == name && ValueText(line) == value
  {
    var line := name + "=" + value;
    assert line[|name|] == '=';
    forall k | 0 <= k < |name| ensures line[k] != '=' { assert line[k] == name[k]; }
    assert line[..|name|] == name && line[|name| + 1..] == value;
    StripOfStripped(IsSpace, name);
    StripOfStripped(IsSpace, value);
    assert Stripped(IsSpace, line) by {
      assert line[0] == if name == "" then '=' else name[0];
      assert line[|line| - 1] == if value == "" then '=' else value[|value| - 1];
    }
    StripOfStripped(IsSpace, line);
    assert line[0] != '#';
  }

  /** A rewritten line: a raw one is the old one, any other has the old key, and the value. */
  lemma RewrittenLine(line: string, values: Values)
    requires Unbroken(line) && CleanValues(values)
    requires !IsRaw(line) ==> KeyOf(KeyText(line)) in values
    ensures var line' := Render(values, EntryOf(line));
            && Unbroken(line') && EntryOf(line') == EntryOf(line) && IsRaw(line') == IsRaw(line)
            && (!IsRaw(line) ==> KeyText(line') == KeyText(line) && ValueText(line') == values[KeyOf(KeyText(line))])
  {
    if !IsRaw(line) {
      KeyTextIsClean(line);
      RenderedLine(KeyText(line), values[KeyOf(KeyText(line))]);
    }
  }

  ghost predicate KeysHaveValues(lines: seq<string>, values: Values) {
    forall i :: 0 <= i < |lines| ==> !IsRaw(lines[i]) ==> KeyOf(KeyText(lines[i])) in values
  }

  /** Restricted to the keys that have a line. */
  function Restricted(values: Values, keys: set<Key>): Values {
    map k | k in values && k in keys :: values[k]
  }

  lemma {:induction false} LoadedAreClean(lines: seq<string>)
    requires AllUnbroken(lines)
    ensures CleanValues(ValuesOf(lines)) && KeysHaveValues(lines, ValuesOf(lines))
  {
    if lines == [] {
    } else {
      var front, last := lines[..|lines| - 1], lines[|lines| - 1];
      LoadedAreClean(front);
      assert Unbroken(last);
      if !IsRaw(last) { ValueTextIsClean(last); }
      forall i | 0 <= i < |lines| && !IsRaw(lines[i]) ensures KeyOf(KeyText(lines[i])) in ValuesOf(lines) {
        if i < |front| { assert front[i] == lines[i]; }
      }
    }
  }

  /** The lines carry the same keys, with the given values. */
  ghost predicate Carries(lines': seq<string>, lines: seq<string>, values: Values) {
    && |lines'| == |lines|
    && forall i :: 0 <= i < |lines| ==>
         && IsRaw(lines'[i]) == IsRaw(lines[i])
         && (!IsRaw(lines[i]) ==>
               && KeyText(lines'[i]) == KeyText(lines[i])
               && KeyOf(KeyText(lines[i])) in values
               && ValueText(lines'[i]) == values[KeyOf(KeyText(lines[i]))])
  }

  lemma RestrictedToMore(values: Values, keys: set<Key>, k: Key)
    requires k in values
    ensures Restricted(values, keys + {k}) == Restricted(values, keys)[k := values[k]]
  {
  }

  lemma {:induction false} CarriedValues(lines': seq<string>, lines: seq<string>, values: Values)
    requires Carries(lines', lines, values)
    ensures ValuesOf(lines') == Restricted(values, ValuesOf(lines).Keys)
  {
    if lines == [] {
    } else {
      var n := |lines| - 1;
      CarriedValues(lines'[..n], lines[..n], values);
      assert IsRaw(lines'[n]) == IsRaw(lines[n]);
      if !IsRaw(lines[n]) {
        RestrictedToMore(values, ValuesOf(lines[..n]).Keys, KeyOf(KeyText(lines[n])));
      }
    }
  }

  /** Reading rewritten lines gives back the values that were written. */
  lemma ValuesReadBack(lines: seq<string>, values: Values)
    requires AllUnbroken(lines) && CleanValues(values) && KeysHaveValues(lines, values)
    ensures var lines' := RenderAll(values, Entries(lines));
            && AllUnbroken(lines') && Entries(lines') == Entries(lines)
            && ValuesOf(lines') == Restricted(values, ValuesOf(lines).Keys)
  {
    var lines' := RenderAll(values, Entries(lines));
    forall i | 0 <= i < |lines|
      ensures Unbroken(lines'[i]) && EntryOf(lines'[i]) == EntryOf(lines[i])
      ensures IsRaw(lines'[i]) == IsRaw(lines[i])
      ensures !IsRaw(lines[i]) ==>
                KeyText(lines'[i]) == KeyText(lines[i]) && ValueText(lines'[i]) == values[KeyOf(KeyText(lines[i]))]
    {
      RewrittenLine(lines[i], values);
    }
    assert Carries(lines', lines, values);
    CarriedValues(lines', lines, values);
  }

  /** `load_env_file` of a rewritten file: the same entries, line by line, and the written
      values. */
  lemma RewrittenReadsBack(lines: seq<string>, values: Values)
    requires lines != [] && AllUnbroken(lines) && CleanValues(values) && KeysHaveValues(lines, values)
    ensures var lines' := SplitLines(Rewritten(values, Entries(lines)));
            && lines' == RenderAll(values, Entries(lines)) && Entries(lines') == Entries(lines)
            && ValuesOf(lines') == Restricted(values, ValuesOf(lines).Keys)
  {
    ValuesReadBack(lines, values);
    LinesReadBack(RenderAll(values, Entries(lines)));
  }

  // ----- A file made of one line per key -----

  predicate Writable(values: Values, k: Key) {
    k in values && CleanKey(KeyName(k)) && CleanValue(values[k]) && KeyOf(KeyName(k)) == k
  }

  function LinesFor(values: Values, keys: seq<Key>): seq<string> {
    seq(|keys|, i requires 0 <= i < |keys| => Render(values, Kv(keys[i])))
  }

  lemma LineLoads(values: Values, k: Key)
    requires Writable(values, k)
    ensures var line := Render(values, Kv(k));
            Unbroken(line) && !IsRaw(line) && KeyOf(KeyText(line)) == k && ValueText(line) == values[k]
  {
    RenderedLine(KeyName(k), values[k]);
  }

  lemma {:induction false} LinesLoad(values: Values, keys: seq<Key>)
    requires forall i :: 0 <= i < |keys| ==> Writable(values, keys[i])
    ensures ValuesOf(LinesFor(values, keys)) == map k | k in values && k in keys :: values[k]
  {
    hide Render, IsRaw, KeyText, ValueText, KeyOf, CleanKey, CleanValue;
    var lines := LinesFor(values, keys);
    if keys == [] {
    } else {
      var front, last := keys[..|keys| - 1], keys[|keys| - 1];
      LinesLoad(values, front);
      assert lines[..|lines| - 1] == LinesFor(values, front);
      LineLoads(values, last);
      assert forall k :: k in keys <==> k in front || k == last;
    }
  }

  /** Such a file loads as the values it was written from. */
  lemma FileLoads(values: Values, keys: seq<Key>)
    requires keys != [] && forall i :: 0 <= i < |keys| ==> Writable(values, keys[i])
    ensures ValuesOf(SplitLines(JoinLines(LinesFor(values, keys)))) == map k | k in values && k in keys :: values[k]
  {
    hide Render, IsRaw, KeyText, ValueText, KeyOf, CleanKey, CleanValue, Unbroken;
    var lines := LinesFor(values, keys);
    forall i | 0 <= i < |lines| ensures Unbroken(lines[i]) { LineLoads(values, keys[i]); }
    LinesReadBack(lines);
    LinesLoad(values, keys);
  }
}
