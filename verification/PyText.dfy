/** The parts of Python's `str` the service relies on: `strip` and `lower`.

    `StripBy` is generic so that it serves both file text (`string`) and the decoded
    contents of JSON strings, which may hold lone surrogates. */
module PyText {

  /** A Python code point: surrogates included, as `json.loads` can produce them. */
  type CodePoint = n: nat | n < 0x110000

  /** `str.isspace` for one code point. */
  predicate IsSpacePoint(p: CodePoint) {
    || 0x09 <= p <= 0x0D
    || 0x1C <= p <= 0x20
    || p == 0x85
    || p == 0xA0
    || p == 0x1680
    || 0x2000 <= p <= 0x200A
    || p in {0x2028, 0x2029, 0x202F, 0x205F, 0x3000}
  }

  predicate IsSpace(c: char) {
    IsSpacePoint(c as int)
  }

  predicate Stripped<T>(space: T -> bool, s: seq<T>) {
    s == [] || (!space(s[0]) && !space(s[|s| - 1]))
  }

  function TrimLeft<T>(space: T -> bool, s: seq<T>): seq<T> {
    if s != [] && space(s[0]) then TrimLeft(space, s[1..]) else s
  }

  function TrimRight<T>(space: T -> bool, s: seq<T>): seq<T> {
    if s != [] && space(s[|s| - 1]) then TrimRight(space, s[..|s| - 1]) else s
  }

  /** `str.strip()`. */
  function StripBy<T>(space: T -> bool, s: seq<T>): seq<T> {
    TrimRight(space, TrimLeft(space, s))
  }

  function Strip(s: string): string {
    StripBy(IsSpace, s)
  }

  lemma {:induction false} TrimLeftIsSuffix<T>(space: T -> bool, s: seq<T>)
    ensures var r := TrimLeft(space, s);
            && |r| <= |s| && r == s[|s| - |r|..]
            && (r != [] ==> !space(r[0]))
            && (forall i :: 0 <= i < |s| - |r| ==> space(s[i]))
  {
    var r := TrimLeft(space, s);
    if s != [] && space(s[0]) {
      var rest := s[1..];
      TrimLeftIsSuffix(space, rest);
      assert rest[|rest| - |r|..] == s[|s| - |r|..];
      forall i | 0 <= i < |s| - |r| ensures space(s[i]) {
        if i > 0 { assert s[i] == rest[i - 1]; }
      }
    }
  }

  lemma {:induction false} TrimRightIsPrefix<T>(space: T -> bool, s: seq<T>)
    ensures var r := TrimRight(space, s);
            && |r| <= |s| && r == s[..|r|]
            && (r != [] ==> !space(r[|r| - 1]))
            && (forall i :: |r| <= i < |s| ==> space(s[i]))
  {
    var r := TrimRight(space, s);
    if s != [] && space(s[|s| - 1]) {
      var front := s[..|s| - 1];
      TrimRightIsPrefix(space, front);
      assert front[..|r|] == s[..|r|];
      forall i | |r| <= i < |s| ensures space(s[i]) {
        if i < |s| - 1 { assert s[i] == front[i]; }
      }
    }
  }

  /** Stripping takes away exactly the blanks at both ends. */
  lemma StripIsSlice<T>(space: T -> bool, s: seq<T>) returns (i: nat, j: nat)
    ensures i <= j <= |s| && StripBy(space, s) == s[i..j]
    ensures Stripped(space, StripBy(space, s))
    ensures forall k :: 0 <= k < i || j <= k < |s| ==> space(s[k])
  {
    hide TrimLeft, TrimRight;
    var left := TrimLeft(space, s);
    TrimLeftIsSuffix(space, s);
    TrimRightIsPrefix(space, left);
    i := |s| - |left|;
    j := i + |TrimRight(space, left)|;
    assert forall k :: i <= k < |s| ==> s[k] == left[k - i];
  }

  lemma StripOfStripped<T>(space: T -> bool, s: seq<T>)
    requires Stripped(space, s)
    ensures StripBy(space, s) == s
  {
  }

  /** `not s.strip()`: nothing but blanks. */
  predicate Blank(s: string) {
    s == "" || (IsSpace(s[0]) && Blank(s[1..]))
  }

  lemma {:induction false} BlankIsAllSpace(s: string)
    ensures Blank(s) <==> forall i :: 0 <= i < |s| ==> IsSpace(s[i])
  {
    if s == "" {
    } else {
      BlankIsAllSpace(s[1..]);
      assert (forall i :: 0 <= i < |s| ==> IsSpace(s[i]))
             <==> IsSpace(s[0]) && forall i :: 0 <= i < |s[1..]| ==> IsSpace(s[1..][i]) by {
        if forall i :: 0 <= i < |s| ==> IsSpace(s[i]) {
          forall i | 0 <= i < |s[1..]| ensures IsSpace(s[1..][i]) { assert s[1..][i] == s[i + 1]; }
        }
        if IsSpace(s[0]) && forall i :: 0 <= i < |s[1..]| ==> IsSpace(s[1..][i]) {
          forall i | 0 <= i < |s| ensures IsSpace(s[i]) { if i > 0 { assert s[i] == s[1..][i - 1]; } }
        }
      }
    }
  }

  lemma BlankIsEmptyStrip(s: string)
    ensures Blank(s) <==> Strip(s) == ""
  {
    var i, j := StripIsSlice(IsSpace, s);
    BlankIsAllSpace(s);
    if Strip(s) != "" { assert s[i] == Strip(s)[0]; }
  }

  /** `str.lower` for one character, as far as ASCII results go: A-Z and the Kelvin
      sign are the only characters whose lower case is an ASCII letter. Any other
      character is left alone, since neither it nor its lower case can occur in the
      ASCII words the service compares with. */
  function LowerChar(c: char): char {
    if 'A' <= c <= 'Z' then (c as int + 32) as char
    else if c == '\U{212A}' then 'k'
    else c
  }

  function Lower(s: string): string {
    if s == "" then "" else [LowerChar(s[0])] + Lower(s[1..])
  }
}
