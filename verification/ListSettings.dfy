/** List-valued settings: a JSON array or comma-separated text. The settings parse them,
    and the deploy script rewrites them as JSON arrays of texts. */
module ListSettings {
  import opened Wrappers
  import opened PyText
  import opened Words
  import opened Json

  /** `str(item)` of a decoded JSON value; `None` when it raises. */
  type Show = Json -> Option<Points>

  /** Texts show as themselves. How Python renders numbers, lists or dictionaries is not
      modelled; that rendering escapes surrogates. */
  ghost predicate Faithful(show: Show) {
    && (forall p: Points :: show(Text(p)) == Some(p))
    && (forall j: Json :: !j.Text? && show(j).Some? ==> Joined(show(j).value))
  }

  datatype ListError = Empty | NotJson | NotArray | Unshowable | NoItems

  /** `s.split(c)`. */
  function SplitOn(s: string, c: char): (r: seq<string>)
    ensures r != []
  {
    if s == "" then [""]
    else if s[0] == c then [""] + SplitOn(s[1..], c)
    else
      var rest := SplitOn(s[1..], c);
      [[s[0]] + rest[0]] + rest[1..]
  }

  function JoinedBy(parts: seq<string>, c: char): string {
    if parts == [] then ""
    else if |parts| == 1 then parts[0]
    else parts[0] + ([c] + JoinedBy(parts[1..], c))
  }

  lemma JoinedWithLongerHead(parts: seq<string>, x: char, c: char)
    requires parts != []
    ensures JoinedBy([[x] + parts[0]] + parts[1..], c) == [x] + JoinedBy(parts, c)
  {
    var longer := [[x] + parts[0]] + parts[1..];
    assert longer[1..] == parts[1..];
    if |parts| > 1 {
      var tail := [c] + JoinedBy(parts[1..], c);
      assert ([x] + parts[0]) + tail == [x] + (parts[0] + tail);
    }
  }

  /** Splitting is undone by joining. */
  lemma {:induction false} SplitIsUndone(s: string, c: char)
    ensures JoinedBy(SplitOn(s, c), c) == s
  {
    if s == "" {
    } else {
      SplitIsUndone(s[1..], c);
      var rest := SplitOn(s[1..], c);
      if s[0] == c {
        assert SplitOn(s, c)[1..] == rest;
        assert "" + ([c] + s[1..]) == s;
      } else {
        JoinedWithLongerHead(rest, s[0], c);
        assert s == [s[0]] + s[1..];
      }
    }
  }

  /** No part holds the separator. */
  lemma {:induction false} PartsHoldNoSeparator(s: string, c: char)
    ensures forall k :: 0 <= k < |SplitOn(s, c)| ==> c !in SplitOn(s, c)[k]
  {
    if s == "" {
    } else {
      PartsHoldNoSeparator(s[1..], c);
    }
  }

  function StripPoints(p: Points): Points {
    StripBy(IsSpacePoint, p)
  }

  /** `[item.strip() for item in items if item.strip()]`. */
  function Trimmed(items: seq<Points>): seq<Points> {
    if items == [] then []
    else (if StripPoints(items[0]) == [] then [] else [StripPoints(items[0])]) + Trimmed(items[1..])
  }

  function Shown(show: Show, items: seq<Json>): Option<seq<Points>> {
    if items == [] then Some([])
    else
      var first, rest := show(items[0]), Shown(show, items[1..]);
      if first.None? || rest.None? then None else Some([first.value] + rest.value)
  }

  /** The items of a stripped text that is not empty. */
  function ItemsOf(show: Show, s: string): Result<seq<Points>, ListError>
    requires s != ""
  {
    if s[0] == '[' then
      match Loads(s)
      case None => Err(NotJson)
      case Some(Array(items)) =>
        var shown := Shown(show, items);
        if shown.None? then Err(Unshowable) else Ok(Trimmed(shown.value))
      case Some(_) => Err(NotArray)
    else Ok(Trimmed(AllPoints(SplitOn(s, ','))))
  }

  /** `parse_csv_or_json_list`. */
  function ParseCsvOrJsonList(show: Show, raw: string): Result<seq<Points>, ListError> {
    var s := Strip(raw);
    if s == "" then Ok([]) else ItemsOf(show, s)
  }

  /** `normalize_list_field`: the text the field is rewritten as. */
  function NormalizedList(show: Show, raw: string): Result<string, ListError> {
    var s := Strip(raw);
    if s == "" then Err(Empty)
    else
      var items :- ItemsOf(show, s);
      if items == [] then Err(NoItems) else Ok(Dumps(items, Compact))
  }

  // ----- What items look like -----

  predicate NormalItem(p: Points) {
    p != [] && Stripped(IsSpacePoint, p) && Joined(p)
  }

  predicate AllJoined(items: seq<Points>) {
    forall i :: 0 <= i < |items| ==> Joined(items[i])
  }

  predicate AllNormal(items: seq<Points>) {
    forall i :: 0 <= i < |items| ==> NormalItem(items[i])
  }

  lemma JoinedSlice(p: Points, i: nat, j: nat)
    requires Joined(p) && i <= j <= |p|
    ensures Joined(p[i..j])
  {
    forall k | 0 < k < j - i ensures !(High(p[i..j][k - 1]) && Low(p[i..j][k])) {
      assert !(High(p[i + k - 1]) && Low(p[i + k]));
    }
  }

  lemma {:induction false} TrimmedIsNormal(items: seq<Points>)
    requires AllJoined(items)
    ensures AllNormal(Trimmed(items))
  {
    if items == [] {
    } else {
      var i, j := StripIsSlice(IsSpacePoint, items[0]);
      JoinedSlice(items[0], i, j);
      TrimmedIsNormal(items[1..]);
    }
  }

  lemma {:induction false} TrimmedKeepsNormal(items: seq<Points>)
    requires AllNormal(items)
    ensures Trimmed(items) == items
  {
    if items == [] {
    } else {
      StripOfStripped(IsSpacePoint, items[0]);
      TrimmedKeepsNormal(items[1..]);
      assert items == [items[0]] + items[1..];
    }
  }

  lemma {:induction false} PartsAreJoined(parts: seq<string>)
    ensures AllJoined(AllPoints(parts))
  {
    if parts == [] {
    } else {
      FileTextIsJoined(parts[0]);
      PartsAreJoined(parts[1..]);
    }
  }

  lemma {:induction false} ShownIsJoined(show: Show, items: seq<Json>)
    requires Faithful(show) && Shown(show, items).Some?
    requires forall i :: 0 <= i < |items| && items[i].Text? ==> Joined(items[i].points)
    ensures AllJoined(Shown(show, items).value)
  {
    if items == [] {
    } else {
      ShownIsJoined(show, items[1..]);
      if items[0].Text? { assert show(Text(items[0].points)) == Some(items[0].points); }
    }
  }

  /** Items are never blank, never padded, and can be written as JSON without loss. */
  lemma ItemsAreNormal(show: Show, s: string)
    requires Faithful(show) && s != "" && ItemsOf(show, s).Ok?
    ensures AllNormal(ItemsOf(show, s).value)
  {
    if s[0] == '[' {
      LoadedTextsAreJoined(s);
      ShownIsJoined(show, Loads(s).value.items);
      TrimmedIsNormal(Shown(show, Loads(s).value.items).value);
    } else {
      PartsAreJoined(SplitOn(s, ','));
      TrimmedIsNormal(AllPoints(SplitOn(s, ',')));
    }
  }

  lemma {:induction false} TextsShowAsThemselves(show: Show, items: seq<Points>)
    requires Faithful(show) && AllNormal(items)
    ensures Shown(show, Texts(items)) == Some(items)
  {
    if items == [] {
    } else {
      JoinIsIdentity(items[0]);
      assert show(Text(items[0])) == Some(items[0]);
      assert Texts(items)[1..] == Texts(items[1..]);
      TextsShowAsThemselves(show, items[1..]);
      assert items == [items[0]] + items[1..];
    }
  }

  /** Printed items are read back as they were. */
  lemma PrintedItemsParse(show: Show, items: seq<Points>)
    requires Faithful(show) && AllNormal(items)
    ensures Strip(Dumps(items, Compact)) == Dumps(items, Compact) != ""
    ensures ItemsOf(show, Dumps(items, Compact)) == Ok(items)
  {
    DumpsIsPlain(items, Compact);
    var s := Dumps(items, Compact);
    assert Stripped(IsSpace, s);
    StripOfStripped(IsSpace, s);
    DumpsReadsBack(items, Compact);
    TextsShowAsThemselves(show, items);
    TrimmedKeepsNormal(items);
  }

  /** The script accepts exactly the raw texts that the settings parse to at least one
      item. The settings read the same list from the rewritten field as from the original,
      and rewriting again changes nothing. */
  lemma ListSettingsSurvive(show: Show, raw: string)
    requires Faithful(show)
    ensures NormalizedList(show, raw).Ok?
            <==> ParseCsvOrJsonList(show, raw).Ok? && ParseCsvOrJsonList(show, raw).value != []
    ensures NormalizedList(show, raw).Ok? ==>
              var rewritten := NormalizedList(show, raw).value;
              && ParseCsvOrJsonList(show, rewritten) == ParseCsvOrJsonList(show, raw)
              && NormalizedList(show, rewritten) == Ok(rewritten)
  {
    if NormalizedList(show, raw).Ok? {
      var s := Strip(raw);
      ItemsAreNormal(show, s);
      PrintedItemsParse(show, ItemsOf(show, s).value);
    }
  }

  // ----- What a setting's text means -----

  lemma {:induction false} TrimmedOfConcat(a: seq<Points>, b: seq<Points>)
    ensures Trimmed(a + b) == Trimmed(a) + Trimmed(b)
  {
    if a == [] {
      assert a + b == b;
    } else {
      hide StripPoints;
      TrimmedOfConcat(a[1..], b);
      assert (a + b)[1..] == a[1..] + b && (a + b)[0] == a[0];
      var head := if StripPoints(a[0]) == [] then [] else [StripPoints(a[0])];
      var tail, last := Trimmed(a[1..]), Trimmed(b);
      assert Trimmed(a + b) == head + (tail + last);
      assert head + (tail + last) == (head + tail) + last;
    }
  }

  /** A part gives its text without the blanks around it, or nothing if it is blank. */
  lemma TrimmedOfOne(p: Points) returns (i: nat, j: nat)
    ensures i <= j <= |p| && Stripped(IsSpacePoint, p[i..j])
    ensures forall k :: 0 <= k < i || j <= k < |p| ==> IsSpacePoint(p[k])
    ensures Trimmed([p]) == if i == j then [] else [p[i..j]]
  {
    i, j := StripIsSlice(IsSpacePoint, p);
    assert [p][1..] == [];
  }

  /** A text that is no JSON array is what stands between its commas; a JSON array of texts
      is those texts. Either way each part is trimmed and blank ones are dropped, in order. */
  lemma PlainListsAreCutAtCommas(show: Show, raw: string)
    requires Faithful(show)
    ensures !HasText(raw) ==> ParseCsvOrJsonList(show, raw) == Ok([])
    ensures forall s, parts: seq<string> ::
              && Trims(raw, s) && s != "" && s[0] != '['
              && parts != [] && JoinedBy(parts, ',') == s && NoneHolds(parts, ',')
              ==> ParseCsvOrJsonList(show, raw) == Ok(Trimmed(AllPoints(parts)))
    ensures forall s, items :: Trims(raw, s) && s != "" && s[0] == '[' && AllJoined(items)
                               && Loads(s) == Some(Array(Texts(items))) ==>
              ParseCsvOrJsonList(show, raw) == Ok(Trimmed(items))
  {
    BlankHasNoText(raw);
    forall s | Trims(raw, s) ensures s == Strip(raw) { StripIsTrimming(raw, s); }
    forall s, parts: seq<string> | Trims(raw, s) && s != "" && s[0] != '[' && parts != [] && JoinedBy(parts, ',') == s
                      && NoneHolds(parts, ',')
      ensures ParseCsvOrJsonList(show, raw) == Ok(Trimmed(AllPoints(parts)))
    {
      CutIsUnique(parts, ',');
    }
    forall s, items | Trims(raw, s) && s != "" && s[0] == '[' && AllJoined(items)
                      && Loads(s) == Some(Array(Texts(items)))
      ensures ParseCsvOrJsonList(show, raw) == Ok(Trimmed(items))
    {
      AllTextsShow(show, items);
    }
  }

  predicate NoneHolds(parts: seq<string>, c: char) {
    forall k :: 0 <= k < |parts| ==> c !in parts[k]
  }

  lemma {:induction false} AllTextsShow(show: Show, items: seq<Points>)
    requires Faithful(show) && AllJoined(items)
    ensures Shown(show, Texts(items)) == Some(items)
  {
    if items == [] {
    } else {
      JoinIsIdentity(items[0]);
      assert show(Text(items[0])) == Some(items[0]);
      assert Texts(items)[1..] == Texts(items[1..]);
      AllTextsShow(show, items[1..]);
      assert items == [items[0]] + items[1..];
    }
  }

  lemma {:induction false} SplitWithout(s: string, c: char)
    requires c !in s
    ensures SplitOn(s, c) == [s]
  {
    if s == "" {
    } else {
      SplitWithout(s[1..], c);
      assert s == [s[0]] + s[1..];
    }
  }

  lemma {:induction false} SplitAtFirst(first: string, c: char, rest: string)
    requires c !in first
    ensures SplitOn(first + ([c] + rest), c) == [first] + SplitOn(rest, c)
  {
    var s := first + ([c] + rest);
    if first == "" {
      assert s[0] == c && s[1..] == rest;
    } else {
      assert s[0] == first[0] && s[1..] == first[1..] + ([c] + rest);
      SplitAtFirst(first[1..], c, rest);
      assert first == [first[0]] + first[1..];
    }
  }

  /** There is only one way to cut a text at a separator. */
  lemma {:induction false} CutIsUnique(parts: seq<string>, c: char)
    requires parts != [] && NoneHolds(parts, c)
    ensures SplitOn(JoinedBy(parts, c), c) == parts
  {
    assert c !in parts[0];
    if |parts| == 1 {
      SplitWithout(parts[0], c);
    } else {
      forall k | 0 <= k < |parts[1..]| ensures c !in parts[1..][k] { assert c !in parts[k + 1]; }
      CutIsUnique(parts[1..], c);
      SplitAtFirst(parts[0], c, JoinedBy(parts[1..], c));
    }
  }
}
