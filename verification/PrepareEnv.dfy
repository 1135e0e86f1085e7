/** The deploy script on a file: load, check and normalise, rewrite in place. */
module PrepareEnv {
  import opened Wrappers
  import opened PyText
  import opened ListSettings
  import opened EnvFile
  import opened EnvRules

  // ----- The whole script, as a function of the file's text -----

  /** The text a file is rewritten to, or the first complaint. */
  function PreparedText(h: Host, text: string): Result<string, EnvError> {
    var lines := SplitLines(text);
    var values :- RunRules(h, PLAN, ValuesOf(lines));
    Ok(Rewritten(values, Entries(lines)))
  }

  lemma AcceptedHasLines(h: Host, lines: seq<string>)
    requires Accepted(h, ValuesOf(lines))
    ensures lines != []
  {
    AcceptedVerdict(h, ValuesOf(lines), 0);
    assert Strip("") == "";
  }

  /** What is known of a file that the script accepts. */
  lemma PreparedParts(h: Host, text: string)
    requires Sound(h) && PreparedText(h, text).Ok?
    ensures var lines, values := SplitLines(text), ValuesOf(SplitLines(text));
            var lines' := SplitLines(PreparedText(h, text).value);
            && Accepted(h, values) && CleanValues(values)
            && PreparedText(h, text).value == Rewritten(Normalised(h, values), Entries(lines))
            && lines' == RenderAll(Normalised(h, values), Entries(lines))
            && Entries(lines') == Entries(lines)
            && ValuesOf(lines') == SecondStart(h, values)
  {
    var lines := SplitLines(text);
    var values := ValuesOf(lines);
    RulesWorkIndependently(h, values);
    SplitLinesAreUnbroken(text);
    LoadedAreClean(lines);
    NormalisedIsClean(h, values);
    AcceptedHasLines(h, lines);
    NormalisedKeepsKeys(h, lines);
    RewrittenReadsBack(lines, Normalised(h, values));
  }

  lemma NormalisedKeepsKeys(h: Host, lines: seq<string>)
    requires AllUnbroken(lines)
    ensures KeysHaveValues(lines, Normalised(h, ValuesOf(lines)))
  {
    LoadedAreClean(lines);
  }

  /** Preparing a prepared file succeeds and reproduces it exactly. */
  lemma PreparingIsIdempotent(h: Host, text: string)
    requires Sound(h) && PreparedText(h, text).Ok?
    ensures PreparedText(h, PreparedText(h, text).value) == PreparedText(h, text)
  {
    var values := ValuesOf(SplitLines(text));
    PreparedParts(h, text);
    NormalisingTwice(h, values);
    RulesWorkIndependently(h, SecondStart(h, values));
  }

  /** Preparing keeps the number and order of the lines, every comment and blank line as
      it is, and every key; each value becomes what its own rule makes of it. */
  lemma PreparingKeepsLines(h: Host, text: string)
    requires Sound(h) && PreparedText(h, text).Ok?
    ensures var lines, lines' := SplitLines(text), SplitLines(PreparedText(h, text).value);
            var values := ValuesOf(lines);
            && |lines'| == |lines|
            && forall i :: 0 <= i < |lines| ==>
                 if IsRaw(lines[i]) then lines'[i] == lines[i]
                 else
                   var key := KeyOf(KeyText(lines[i]));
                   && key in Normalised(h, values)
                   && lines'[i] == KeyText(lines[i]) + "=" + Normalised(h, values)[key]
  {
    var lines := SplitLines(text);
    PreparedParts(h, text);
    SplitLinesAreUnbroken(text);
    NormalisedKeepsKeys(h, lines);
  }

  /** The manifest renderer, which has a parser of its own, reads from the prepared file
      exactly the values that were written, for exactly the keys of the original. */
  lemma PreparedValuesAreRead(h: Host, text: string)
    requires Sound(h) && PreparedText(h, text).Ok?
    ensures var before, after := ValuesOf(SplitLines(text)), ValuesOf(SplitLines(PreparedText(h, text).value));
            && after.Keys == before.Keys
            && RunRules(h, PLAN, before).Ok?
            && forall k :: k in after ==>
                 k in RunRules(h, PLAN, before).value && after[k] == RunRules(h, PLAN, before).value[k]
  {
    var values := ValuesOf(SplitLines(text));
    PreparedParts(h, text);
    RulesWorkIndependently(h, values);
    forall k ensures k in SecondStart(h, values) <==> k in values { SecondLook(h, values, k); }
    assert SecondStart(h, values).Keys == values.Keys;
  }

  /** The service's settings read the same hosts and origins before and after. */
  lemma PreparedListsAreTheSame(h: Host, text: string, k: Key)
    requires Sound(h) && PreparedText(h, text).Ok?
    requires k == CorsAllowedOrigins || k == TrustedHosts
    ensures var before, after := ValuesOf(SplitLines(text)), ValuesOf(SplitLines(PreparedText(h, text).value));
            && k in before && k in after
            && ParseCsvOrJsonList(h.show, after[k]) == ParseCsvOrJsonList(h.show, before[k])
            && ParseCsvOrJsonList(h.show, after[k]).Ok? && ParseCsvOrJsonList(h.show, after[k]).value != []
  {
    var values := ValuesOf(SplitLines(text));
    PreparedParts(h, text);
    ListVerdict(h, values, k);
    SecondLook(h, values, k);
    StripOfStripped(IsSpace, values[k]);
    ListSettingsSurvive(h.show, values[k]);
  }

  lemma ListVerdict(h: Host, values: Values, k: Key)
    requires Accepted(h, values) && CleanValues(values) && (k == CorsAllowedOrigins || k == TrustedHosts)
    ensures k in values && CleanValue(values[k]) && NormalizedList(h.show, values[k]).Ok?
    ensures Given(h, values, k) == Some(NormalizedList(h.show, values[k]).value)
  {
    OwnersAreInThePlan(k);
    AcceptedVerdict(h, values, Turn(k));
    assert Verdict(h, ListField(k), values).Ok?;
    assert Strip("") == "";
    StripOfStripped(IsSpace, values[k]);
  }
}
