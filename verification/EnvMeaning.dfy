/** What an env file says and what the deploy script makes of it, by the names and texts in the
    file. */
module EnvMeaning {
  import opened PyText
  import opened Words
  import opened EnvFile

  // ----- Lines -----

  /** Where a file's text is cut, besides CR LF. */
  lemma BreaksAre(c: char)
    ensures IsBreak(c) <==>
            c in ['\n', '\r', '\U{000B}', '\U{000C}', '\U{001C}', '\U{001D}', '\U{001E}', '\U{0085}', '\U{2028}',
                  '\U{2029}']
  {
  }

  lemma {:induction false} FirstBreak(line: string, rest: string)
    requires Unbroken(line) && rest != "" && IsBreak(rest[0])
    ensures LineEnd(line + rest) == |line|
  {
    var s := line + rest;
    if line == "" {
      assert s == rest;
    } else {
      assert s[0] == line[0] && s[1..] == line[1..] + rest;
      FirstBreak(line[1..], rest);
    }
  }

  /** A text is cut at its breaks; CR LF counts as one, and the last line needs none. */
  lemma LinesAreCut(line: string, c: char, rest: string)
    requires Unbroken(line)
    ensures SplitLines("") == [] && (line != "" ==> SplitLines(line) == [line])
    ensures IsBreak(c) && !(c == '\r' && rest != "" && rest[0] == '\n') ==>
              SplitLines(line + ([c] + rest)) == [line] + SplitLines(rest)
    ensures SplitLines(line + ("\r\n" + rest)) == [line] + SplitLines(rest)
  {
    WholeLine(line);
    if IsBreak(c) && !(c == '\r' && rest != "" && rest[0] == '\n') { CutAtBreak(line, c, rest); }
    CutAtCrLf(line, rest);
    hide SplitLines, LineEnd;
  }

  lemma CutAtBreak(line: string, c: char, rest: string)
    requires Unbroken(line) && IsBreak(c) && !(c == '\r' && rest != "" && rest[0] == '\n')
    ensures SplitLines(line + ([c] + rest)) == [line] + SplitLines(rest)
  {
    var s := line + ([c] + rest);
    FirstBreak(line, [c] + rest);
    hide LineEnd;
    assert s[..|line|] == line && s[|line|] == c && s[|line| + 1..] == rest;
    assert |line| + 1 < |s| ==> s[|line| + 1] == rest[0];
  }

  lemma CutAtCrLf(line: string, rest: string)
    requires Unbroken(line)
    ensures SplitLines(line + ("\r\n" + rest)) == [line] + SplitLines(rest)
  {
    var s := line + ("\r\n" + rest);
    FirstBreak(line, "\r\n" + rest);
    hide LineEnd;
    assert s[..|line|] == line && s[|line|] == '\r' && s[|line| + 1] == '\n' && s[|line| + 2..] == rest;
  }

  lemma {:induction false} WholeLine(line: string)
    requires Unbroken(line)
    ensures LineEnd(line) == |line|
    ensures SplitLines("") == [] && (line != "" ==> SplitLines(line) == [line])
  {
    if line != "" { WholeLine(line[1..]); }
  }

  /** Lines are written one after the other, each with a line feed. */
  lemma {:induction false} LinesAreJoined(line: string, a: seq<string>, b: seq<string>)
    requires a != [] && b != []
    ensures JoinLines([line]) == line + "\n"
    ensures JoinLines(a + b) == JoinLines(a) + JoinLines(b)
    decreases |a|
  {
    assert [line][1..] == [];
    assert (a + b)[1..] == a[1..] + b;
    if |a| > 1 {
      LinesAreJoined(line, a[1..], b);
      var first, middle, last := a[0], JoinLines(a[1..]), JoinLines(b);
      assert first + ("\n" + (middle + last)) == (first + ("\n" + middle)) + last;
    } else {
      assert a[1..] + b == b;
      var first, last := a[0], JoinLines(b);
      assert first + ("\n" + last) == (first + ("\n" + "")) + last;
    }
  }

  predicate CommentLine(line: string) {
    exists k :: 0 <= k < |line| && line[k] == '#' && forall j :: 0 <= j < k ==> IsSpace(line[j])
  }

  /** The line sets `name` to `value`: it is not a comment, and both stand, with any blanks, on
      the two sides of its first `=`. */
  ghost predicate Sets(line: string, name: string, value: string) {
    && !CommentLine(line)
    && exists e :: 0 <= e < |line| && line[e] == '=' && '=' !in line[..e]
                   && Trims(line[..e], name) && Trims(line[e + 1..], value)
  }

  lemma FirstEquals(line: string, e: nat)
    requires e < |line| && line[e] == '=' && '=' !in line[..e]
    ensures Equals(line) == e
  {
    forall i | 0 <= i < e ensures line[i] != '=' { assert line[..e][i] == line[i]; }
  }

  lemma CommentsAreMarked(line: string)
    requires '=' in line
    ensures IsRaw(line) <==> CommentLine(line)
  {
    var e :| 0 <= e < |line| && line[e] == '=';
    assert !IsSpace('=');
    BlankHasNoText(line);
    var i := StripStart(line);
    if line[i] == '#' { assert CommentLine(line); }
    if CommentLine(line) {
      var k :| 0 <= k < |line| && line[k] == '#' && forall j :: 0 <= j < k ==> IsSpace(line[j]);
      assert !IsSpace('#');
      assert k == i;
    }
  }

  /** Every line either sets one name to one value, or is kept as it is. */
  lemma LineMeans(line: string, name: string, value: string)
    ensures Sets(line, name, value) <==> !IsRaw(line) && KeyText(line) == name && ValueText(line) == value
    ensures IsRaw(line) <==> '=' !in line || CommentLine(line)
  {
    if '=' in line {
      CommentsAreMarked(line);
      if !IsRaw(line) {
        var n := Equals(line);
        assert '=' !in line[..n];
        StripIsTrimming(line[..n], name);
        StripIsTrimming(line[n + 1..], value);
        forall e | 0 <= e < |line| && line[e] == '=' && '=' !in line[..e] ensures e == n { FirstEquals(line, e); }
      }
    }
  }

  ghost predicate SetsSome(line: string, name: string) {
    exists value :: Sets(line, name, value)
  }

  /** The i-th line sets the name, and no later one does. */
  ghost predicate SetsLast(lines: seq<string>, i: int, name: string, value: string)
    requires 0 <= i < |lines|
  {
    Sets(lines[i], name, value) && forall j :: i < j < |lines| ==> !SetsSome(lines[j], name)
  }

  ghost predicate SetTo(lines: seq<string>, name: string, value: string) {
    exists i :: 0 <= i < |lines| && SetsLast(lines, i, name, value)
  }

  lemma SetsSomeMeans(line: string, name: string)
    ensures SetsSome(line, name) <==> !IsRaw(line) && KeyText(line) == name
  {
    forall value { LineMeans(line, name, value); }
    if !IsRaw(line) && KeyText(line) == name { assert Sets(line, name, ValueText(line)); }
    hide Sets, IsRaw, KeyText, ValueText;
  }

  lemma SetsLastInFront(lines: seq<string>, i: nat, name: string, value: string)
    requires i < |lines| - 1
    ensures var n := |lines| - 1;
            SetsLast(lines, i, name, value) <==>
              SetsLast(lines[..n], i, name, value) && !SetsSome(lines[n], name)
  {
    hide Sets, SetsSome;
    var n := |lines| - 1;
    var front := lines[..n];
    if SetsLast(front, i, name, value) && !SetsSome(lines[n], name) {
      forall j | i < j < |lines| ensures !SetsSome(lines[j], name) { if j < n { assert front[j] == lines[j]; } }
    }
    if SetsLast(lines, i, name, value) {
      forall j | i < j < n ensures !SetsSome(front[j], name) { assert front[j] == lines[j]; }
    }
  }

  lemma SetToStep(lines: seq<string>, name: string, value: string)
    requires lines != []
    ensures var n := |lines| - 1;
            SetTo(lines, name, value) <==>
              Sets(lines[n], name, value) || (SetTo(lines[..n], name, value) && !SetsSome(lines[n], name))
  {
    var n := |lines| - 1;
    var front := lines[..n];
    assert SetsLast(lines, n, name, value) <==> Sets(lines[n], name, value);
    forall i | 0 <= i < n
      ensures SetsLast(lines, i, name, value) <==> SetsLast(front, i, name, value) && !SetsSome(lines[n], name)
    {
      SetsLastInFront(lines, i, name, value);
    }
    hide SetsLast, Sets, SetsSome;
    if SetTo(front, name, value) && !SetsSome(lines[n], name) {
      var i :| 0 <= i < |front| && SetsLast(front, i, name, value);
      assert SetsLast(lines, i, name, value);
    }
  }

  /** The value of a name is what the last line that sets it says. */
  lemma {:induction false} LastLineWins(lines: seq<string>, name: string, value: string)
    ensures KeyOf(name) in ValuesOf(lines) && ValuesOf(lines)[KeyOf(name)] == value <==> SetTo(lines, name, value)
  {
    hide KeyOf, Sets, SetsSome, SetsLast, IsRaw, KeyText, ValueText;
    if lines == [] {
    } else {
      var n := |lines| - 1;
      LastLineWins(lines[..n], name, value);
      SetToStep(lines, name, value);
      LineMeans(lines[n], name, value);
      SetsSomeMeans(lines[n], name);
      assert !IsRaw(lines[n]) ==> (KeyOf(KeyText(lines[n])) == KeyOf(name) <==> KeyText(lines[n]) == name);
      hide SetTo;
    }
  }
}
