/** The deploy script from text to text: which files it refuses, and what each line of a
    prepared file says. */
module PreparedFile {
  import opened Wrappers
  import opened PyText
  import opened Words
  import opened Decimals
  import opened EnvFile
  import opened EnvRules
  import opened PrepareEnv
  import opened EnvMeaning
  import opened EnvSettings

  /** What a text says under each name: what its last line about the name says. */
  lemma TextSays(text: string, name: string)
    ensures var lines := SplitLines(text);
            && (forall value :: SetTo(lines, name, value) ==> At(ValuesOf(lines), name) == value)
            && ((exists value :: SetTo(lines, name, value)) <==> KeyOf(name) in ValuesOf(lines))
            && ((forall value :: !SetTo(lines, name, value)) ==> At(ValuesOf(lines), name) == "")
  {
    var lines := SplitLines(text);
    hide SetTo, KeyOf, ValuesOf;
    forall value { LastLineWins(lines, name, value); }
    if KeyOf(name) in ValuesOf(lines) { assert SetTo(lines, name, ValuesOf(lines)[KeyOf(name)]); }
  }

  /** A file is refused for the first thing that is wrong with what it says, and prepared
      exactly when nothing is. */
  lemma RefusedExactly(h: Host, text: string)
    requires Sound(h)
    ensures var v, r := ValuesOf(SplitLines(text)), PreparedText(h, text);
            if r.Ok? then NoComplaint(h, v, 28) else FirstComplaint(h, v, 28, r.error)
  {
    SplitLinesAreUnbroken(text);
    LoadedAreClean(SplitLines(text));
    FirstComplaintIsReported(h, ValuesOf(SplitLines(text)));
    hide Sound, NoComplaint, FirstComplaint, RunRules;
  }

  /** A line that sets a name has the name, `=`, and the prepared value; any other line is as
      it was. */
  lemma PreparedLine(h: Host, text: string, i: nat, name: string)
    requires Sound(h) && PreparedText(h, text).Ok? && i < |SplitLines(text)|
    ensures var lines, lines' := SplitLines(text), SplitLines(PreparedText(h, text).value);
            && |lines'| == |lines|
            && (SetsSome(lines[i], name) ==> lines'[i] == name + "=" + At(Normalised(h, ValuesOf(lines)), name))
            && ((forall other :: !SetsSome(lines[i], other)) ==> lines'[i] == lines[i])
  {
    var lines := SplitLines(text);
    PreparingKeepsLines(h, text);
    SetsSomeMeans(lines[i], name);
    SetsSomeMeans(lines[i], KeyText(lines[i]));
    hide Sound, SetsSome, IsRaw, KeyText, KeyOf, Normalised, ValuesOf, SplitLines, PreparedText;
  }

  /** What the prepared file says under a name, and which names it has. */
  lemma PreparedSays(h: Host, text: string, name: string)
    requires Sound(h) && PreparedText(h, text).Ok?
    ensures var before, after := ValuesOf(SplitLines(text)), ValuesOf(SplitLines(PreparedText(h, text).value));
            && (KeyOf(name) in after <==> KeyOf(name) in before)
            && (KeyOf(name) in before ==> At(after, name) == At(Normalised(h, before), name))
  {
    var v := ValuesOf(SplitLines(text));
    PreparedParts(h, text);
    SecondLook(h, v, KeyOf(name));
    Written(h, v, KeyOf(name));
    hide Sound, Accepted, CleanValues, Normalised, SecondStart, Given, KeyOf, PreparedText, SplitLines, ValuesOf;
  }

  /** The five numbers of an accepted file are the numbers of its prepared file. */
  lemma PreparedNumbersAreTheSame(h: Host, text: string, name: string)
    requires Sound(h) && PreparedText(h, text).Ok? && name in NUMBERS
    ensures var before, after := ValuesOf(SplitLines(text)), ValuesOf(SplitLines(PreparedText(h, text).value));
            if At(before, name) != "" then
              && ReadInt(h, At(after, name)) == ReadInt(h, At(before, name))
              && ReadInt(h, At(before, name)).Some? && ReadInt(h, At(before, name)).value > 0
              && AllDigits(At(after, name)) && At(after, name) != "" && At(after, name)[0] != '0'
            else At(after, name) == if KeyOf(name) in before then BlankNumber(name) else ""
  {
    PreparedParts(h, text);
    PreparedSays(h, text, name);
    NumbersAreKept(h, ValuesOf(SplitLines(text)), name);
    hide Sound, Accepted, CleanValues, Normalised, KeyOf, PreparedText, SplitLines, ValuesOf, ReadInt, BlankNumber;
    hide NUMBERS, SecondStart;
  }

  /** Words stay the words they were: environment, switches and provider. */
  lemma PreparedWordsAreTheSame(h: Host, text: string, name: string)
    requires Sound(h) && PreparedText(h, text).Ok?
    requires name == "ENVIRONMENT" || name == "LOG_JSON" || name in SWITCHES
    ensures var before, after := ValuesOf(SplitLines(text)), ValuesOf(SplitLines(PreparedText(h, text).value));
            if At(before, name) != "" then Spells(At(before, name), At(after, name))
            else At(after, name) == if KeyOf(name) in before then "false" else ""
  {
    var v := ValuesOf(SplitLines(text));
    PreparedParts(h, text);
    PreparedSays(h, text, name);
    WordsAreKept(h, v);
    if name in SWITCHES { SwitchesAreKept(h, v, name); }
    WordsAreGiven(h, v);
    hide Sound, Accepted, CleanValues, Normalised, KeyOf, PreparedText, SplitLines, ValuesOf, SWITCHES, SecondStart;
    hide Spells;
  }

  lemma WordsAreGiven(h: Host, v: Values)
    requires Accepted(h, v) && CleanValues(v)
    ensures At(v, "ENVIRONMENT") != "" && At(v, "LOG_JSON") != ""
  {
    SettingsAreNamed();
    OwnVerdictIsGiven(h, v, Environment);
    OwnVerdictIsGiven(h, v, LogJson);
    EnvironmentVerdict(h, v);
    BooleanVerdict(h, v, "LOG_JSON", BooleanField(LogJson));
    hide Accepted, CleanValues, Given, Verdict, KeyOf, Lower, Spells, At;
  }

  /** Provider and log level are upper-cased, where letters become capitals; nothing else that a
      file says is changed, besides the lists. */
  lemma PreparedRestIsTheSame(h: Host, text: string, name: string)
    requires Sound(h) && PreparedText(h, text).Ok?
    ensures var before, after := ValuesOf(SplitLines(text)), ValuesOf(SplitLines(PreparedText(h, text).value));
            && At(after, "LOG_LEVEL") == Upper(h, At(before, "LOG_LEVEL"))
            && (KeyOf("EMAIL_PROVIDER") in before ==>
                  At(after, "EMAIL_PROVIDER")
                  == if At(before, "EMAIL_PROVIDER") == "" then "SMTP" else Upper(h, At(before, "EMAIL_PROVIDER")))
            && (name !in REWRITTEN ==> At(after, name) == At(before, name))
    ensures forall s, word :: Capitalises(s, word) ==> Upper(h, s) == word
  {
    var v := ValuesOf(SplitLines(text));
    PreparedParts(h, text);
    PreparedSays(h, text, name);
    PreparedSays(h, text, "LOG_LEVEL");
    PreparedSays(h, text, "EMAIL_PROVIDER");
    CapitalsAreWritten(h, v);
    LevelIsThere(h, v);
    if name !in REWRITTEN { OthersAreKept(h, v, name); }
    hide Sound, Accepted, CleanValues, Normalised, KeyOf, PreparedText, SplitLines, ValuesOf, REWRITTEN, SecondStart;
    hide Capitalises, Upper;
  }

  lemma LevelIsThere(h: Host, v: Values)
    requires Accepted(h, v)
    ensures KeyOf("LOG_LEVEL") in v
  {
    hide Accepted, KeyOf, Verdict, Given;
    SettingsAreNamed();
    OwnVerdictIsGiven(h, v, LogLevel);
    LevelVerdict(h, v);
  }
}
