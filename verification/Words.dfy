/** Words up to case and outer blanks, as relations on characters: what the service's texts
    mean, without its `strip` and `lower`. */
module Words {
  import opened PyText

  /** The characters Python takes for blanks, one by one. */
  lemma BlanksAre(p: CodePoint)
    ensures IsSpacePoint(p) <==>
            p in [0x9, 0xA, 0xB, 0xC, 0xD, 0x1C, 0x1D, 0x1E, 0x1F, 0x20, 0x85, 0xA0, 0x1680, 0x2000, 0x2001, 0x2002,
                  0x2003, 0x2004, 0x2005, 0x2006, 0x2007, 0x2008, 0x2009, 0x200A, 0x2028, 0x2029, 0x202F, 0x205F,
                  0x3000]
  {
  }

  /** `r` is what is left of `s` without the blanks at its ends. */
  ghost predicate Trims(s: string, r: string) {
    exists i: nat, j: nat :: TrimsAt(s, r, i, j)
  }

  ghost predicate TrimsAt(s: string, r: string, i: nat, j: nat) {
    && i <= j <= |s| && r == s[i..j] && Stripped(IsSpace, r)
    && forall k :: 0 <= k < i || j <= k < |s| ==> IsSpace(s[k])
  }

  /** Some character is not a blank. */
  predicate HasText(s: string) {
    exists i :: 0 <= i < |s| && !IsSpace(s[i])
  }

  lemma StripTrims(s: string)
    ensures Trims(s, Strip(s))
  {
    var i, j := StripIsSlice(IsSpace, s);
    assert TrimsAt(s, Strip(s), i, j);
  }

  lemma TrimsTheSame(s: string, r: string, i: nat, j: nat, r': string, i': nat, j': nat)
    requires TrimsAt(s, r, i, j) && TrimsAt(s, r', i', j')
    ensures r == r'
  {
    if r != "" && r' != "" {
      assert r[0] == s[i] && r'[0] == s[i'];
      assert r[|r| - 1] == s[j - 1] && r'[|r'| - 1] == s[j' - 1];
    }
  }

  /** `strip` is the only way to take the outer blanks away. */
  lemma StripIsTrimming(s: string, r: string)
    ensures Strip(s) == r <==> Trims(s, r)
  {
    StripTrims(s);
    if Trims(s, r) {
      var i: nat, j: nat :| TrimsAt(s, r, i, j);
      var a: nat, b: nat :| TrimsAt(s, Strip(s), a, b);
      TrimsTheSame(s, r, i, j, Strip(s), a, b);
    }
  }

  lemma BlankHasNoText(s: string)
    ensures Blank(s) <==> !HasText(s)
    ensures Strip(s) == "" <==> !HasText(s)
  {
    BlankIsAllSpace(s);
    BlankIsEmptyStrip(s);
  }

  // ----- Case -----

  /** A character that lower-cases to the given small letter: the letter itself, its capital,
      or, for `k`, the Kelvin sign. Other characters stand for themselves. */
  predicate CaseOf(c: char, w: char) {
    || c == w
    || ('a' <= w <= 'z' && c as int + 32 == w as int)
    || (w == 'k' && c == '\U{212A}')
  }

  predicate Spells(s: string, word: string) {
    |s| == |word| && forall i :: 0 <= i < |s| ==> CaseOf(s[i], word[i])
  }

  /** Small letters and underscores. */
  predicate IsWord(word: string) {
    word != "" && forall i :: 0 <= i < |word| ==> 'a' <= word[i] <= 'z' || word[i] == '_'
  }

  /** The text is the word, in any case, with any blanks around it. */
  ghost predicate Says(s: string, word: string) {
    exists r :: Trims(s, r) && Spells(r, word)
  }

  lemma {:induction false} LowerSpells(s: string, word: string)
    requires forall i :: 0 <= i < |word| ==> 'a' <= word[i] <= 'z' || word[i] == '_'
    ensures Lower(s) == word <==> Spells(s, word)
  {
    if s == "" {
    } else if word == "" {
    } else {
      LowerSpells(s[1..], word[1..]);
      assert LowerChar(s[0]) == word[0] <==> CaseOf(s[0], word[0]);
      assert word == [word[0]] + word[1..];
      SpellsFromFirst(s, word);
    }
  }

  lemma SpellsFromFirst(s: string, word: string)
    requires s != "" && word != ""
    ensures Spells(s, word) <==> CaseOf(s[0], word[0]) && Spells(s[1..], word[1..])
  {
    hide CaseOf;
    if CaseOf(s[0], word[0]) && Spells(s[1..], word[1..]) {
      forall i | 0 <= i < |s| ensures CaseOf(s[i], word[i]) {
        if i > 0 { assert CaseOf(s[1..][i - 1], word[1..][i - 1]); }
      }
    }
    if Spells(s, word) {
      forall i | 0 <= i < |s[1..]| ensures CaseOf(s[1..][i], word[1..][i]) { assert CaseOf(s[i + 1], word[i + 1]); }
    }
  }

  /** Stripping, lower-casing and comparing finds exactly the texts that say the word. */
  lemma LowerStripSays(s: string, word: string)
    requires IsWord(word)
    ensures Lower(Strip(s)) == word <==> Says(s, word)
  {
    StripTrims(s);
    LowerSpells(Strip(s), word);
    forall r | Trims(s, r) ensures r == Strip(s) { StripIsTrimming(s, r); }
  }
}
