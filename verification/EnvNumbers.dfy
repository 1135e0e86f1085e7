/** What `int` reads from a text: decimal digits of any script, grouped by underscores. */
module EnvNumbers {
  import opened Wrappers
  import opened Decimals
  import opened EnvRules

  /** Underscores stand between digits only. */
  predicate Grouped(s: string) {
    && s != "" && s[0] != '_' && s[|s| - 1] != '_'
    && forall i :: 0 < i < |s| ==> !(s[i - 1] == '_' && s[i] == '_')
  }

  predicate DigitsOf(h: Host, s: string) {
    forall i :: 0 <= i < |s| ==> s[i] == '_' || h.digit(s[i]).Some?
  }

  /** The same number in ASCII digits, without underscores. */
  function Transcribed(h: Host, s: string): (r: string)
    ensures AllDigits(r)
  {
    if s == "" then ""
    else
      var front, last := Transcribed(h, s[..|s| - 1]), h.digit(s[|s| - 1]);
      if s[|s| - 1] != '_' && last.Some? && last.value < 10 then front + ["0123456789"[last.value]] else front
  }

  /** The text before the last digit, and before the underscore if there is one. */
  function Front(s: string): string
    requires |s| > 1
  {
    if s[|s| - 2] == '_' then s[..|s| - 2] else s[..|s| - 1]
  }

  lemma FrontIsGrouped(s: string)
    requires |s| > 1 && s[|s| - 1] != '_'
    ensures Grouped(s) <==> Grouped(Front(s))
  {
    var n, front := |s|, Front(s);
    if Grouped(s) {
      assert s[n - 2] == '_' ==> n > 2 && s[n - 3] != '_';
      assert front != "" && front[0] == s[0] && front[|front| - 1] == s[|front| - 1];
      forall i | 0 < i < |front| ensures !(front[i - 1] == '_' && front[i] == '_') {
        assert front[i] == s[i] && front[i - 1] == s[i - 1];
      }
    }
    if Grouped(front) {
      assert s[0] == front[0] && s[|front| - 1] == front[|front| - 1];
      forall i | 0 < i < n ensures !(s[i - 1] == '_' && s[i] == '_') {
        if i < |front| { assert s[i] == front[i] && s[i - 1] == front[i - 1]; }
      }
    }
  }

  lemma FrontIsDigits(h: Host, s: string)
    requires |s| > 1 && h.digit(s[|s| - 1]).Some?
    ensures DigitsOf(h, s) <==> DigitsOf(h, Front(s))
  {
    var front := Front(s);
    if DigitsOf(h, front) {
      forall i | 0 <= i < |s| ensures s[i] == '_' || h.digit(s[i]).Some? { if i < |front| { assert s[i] == front[i]; } }
    }
  }

  lemma FrontTranscribed(h: Host, s: string)
    requires |s| > 1 && h.digit(s[|s| - 1]).Some? && h.digit(s[|s| - 1]).value < 10 && s[|s| - 1] != '_'
    ensures Transcribed(h, s) == Transcribed(h, Front(s)) + ["0123456789"[h.digit(s[|s| - 1]).value]]
  {
    var n := |s|;
    if s[n - 2] == '_' { assert s[..n - 1][..n - 2] == Front(s) && s[..n - 1][n - 2] == '_'; }
  }

  lemma OneTranscribed(h: Host, s: string)
    requires |s| == 1 && h.digit(s[0]).Some? && h.digit(s[0]).value < 10 && s[0] != '_'
    ensures NatOf(Transcribed(h, s)) == h.digit(s[0]).value
  {
    var last := h.digit(s[0]).value;
    OneDigit(last);
    assert s[..0] == "" && Transcribed(h, "") == "";
    assert "" + ["0123456789"[last]] == ["0123456789"[last]];
  }

  lemma OneRead(h: Host, s: string)
    requires |s| == 1 && h.digit(s[0]).Some? && h.digit(s[0]).value < 10 && s[0] != '_'
    ensures Grouped(s) && DigitsOf(h, s) && ReadDigits(h, s) == Some(NatOf(Transcribed(h, s)))
  {
    OneTranscribed(h, s);
    hide Transcribed, NatOf;
  }

  lemma NoneRead(h: Host, s: string)
    requires s == "" || h.digit(s[|s| - 1]).None?
    ensures ReadDigits(h, s) == None && !(Grouped(s) && DigitsOf(h, s))
  {
    if s != "" { assert s[|s| - 1] == '_' || !DigitsOf(h, s); }
  }

  /** Exactly the grouped digits are read, as the number they denote in decimal notation. */
  lemma {:induction false} DigitsRead(h: Host, s: string)
    requires Sound(h)
    ensures ReadDigits(h, s).Some? <==> Grouped(s) && DigitsOf(h, s)
    ensures ReadDigits(h, s).Some? ==> ReadDigits(h, s).value == NatOf(Transcribed(h, s))
    decreases |s|
  {
    hide Transcribed, NatOf, Grouped, DigitsOf, ReadDigits;
    if s == "" || h.digit(s[|s| - 1]).None? {
      NoneRead(h, s);
    } else {
      var last := h.digit(s[|s| - 1]).value;
      assert last < 10 && s[|s| - 1] != '_';
      if |s| == 1 {
        OneRead(h, s);
      } else {
        var front := Front(s);
        assert |front| < |s| by { FrontIsShorter(s); }
        FrontIsGrouped(s);
        FrontIsDigits(h, s);
        FrontTranscribed(h, s);
        ReadStep(h, s);
        DigitsRead(h, front);
        LastDigit(Transcribed(h, front), last);
      }
    }
  }

  lemma FrontIsShorter(s: string)
    requires |s| > 1
    ensures |Front(s)| < |s|
  {
  }

  lemma LastDigit(a: string, digit: nat)
    requires AllDigits(a) && digit < 10
    ensures NatOf(a + ["0123456789"[digit]]) == 10 * NatOf(a) + digit
  {
    var one := ["0123456789"[digit]];
    OneDigit(digit);
    NotationIsPositional(a, one);
    assert Power(1) == 10 by { assert Power(0) == 1; }
  }

  /** A sign in front is a sign. */
  lemma SignsRead(h: Host, s: string)
    ensures ReadInt(h, "+" + s) == (if ReadDigits(h, s).Some? then Some(ReadDigits(h, s).value) else None)
    ensures ReadInt(h, "-" + s) == (if ReadDigits(h, s).Some? then Some(-(ReadDigits(h, s).value as int)) else None)
    ensures s != "" && s[0] != '+' && s[0] != '-' ==>
              ReadInt(h, s) == (if ReadDigits(h, s).Some? then Some(ReadDigits(h, s).value) else None)
    ensures ReadInt(h, "") == None
  {
    assert ("+" + s)[1..] == s && ("-" + s)[1..] == s;
  }
}
