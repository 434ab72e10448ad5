/**
 * The AI bridge's heuristic item-text parser (`parseItemText`, `extractItemType`,
 * `extractMods` in ai-bridge/server.js): a total, line-based transform of the
 * text a player copies from the game into a name, a base type and a list of
 * modifier lines. It never fails; unrecognised text gives the defaults
 * "Unknown Item" and "Unknown".
 */
module ItemText {
  import opened JsStrings

  datatype ParsedItem = ParsedItem(name: string, itemType: string, mods: seq<string>, rawText: string)

  const UnknownName := "Unknown Item"
  const UnknownType := "Unknown"

  /** `line.trim()` is truthy. */
  predicate NonBlank(line: string) {
    Trim(line) != ""
  }

  /** `lines.filter(line => line.trim())`. */
  function NonBlankLines(lines: seq<string>): (r: seq<string>)
    ensures |r| <= |lines|
    ensures forall k | 0 <= k < |r| :: NonBlank(r[k])
    decreases |lines|
  {
    if lines == [] then []
    else (if NonBlank(lines[0]) then [lines[0]] else []) + NonBlankLines(lines[1..])
  }

  /** The filter keeps only lines of the input, so a character no line holds is in no kept line. */
  lemma {:induction false} NonBlankLinesLack(lines: seq<string>, c: char)
    requires forall k | 0 <= k < |lines| :: c !in lines[k]
    ensures forall k | 0 <= k < |NonBlankLines(lines)| :: c !in NonBlankLines(lines)[k]
    decreases |lines|
  {
    if lines != [] {
      assert forall k | 0 <= k < |lines| - 1 :: lines[1..][k] == lines[k + 1];
      NonBlankLinesLack(lines[1..], c);
      var head := if NonBlank(lines[0]) then [lines[0]] else [];
      var rest := NonBlankLines(lines[1..]);
      assert NonBlankLines(lines) == head + rest;
      assert forall k | |head| <= k < |head + rest| :: (head + rest)[k] == rest[k - |head|];
    }
  }

  /** The filter keeps the first non-blank line in front, or leaves nothing when every line is blank. */
  lemma {:induction false} NonBlankLinesHead(lines: seq<string>)
    ensures NonBlankLines(lines) == [] <==> (forall i | 0 <= i < |lines| :: !NonBlank(lines[i]))
    ensures forall i | 0 <= i < |lines| && NonBlank(lines[i]) && (forall j | 0 <= j < i :: !NonBlank(lines[j])) ::
      NonBlankLines(lines) != [] && NonBlankLines(lines)[0] == lines[i]
    decreases |lines|
  {
    if lines != [] {
      NonBlankLinesHead(lines[1..]);
      forall i | 0 <= i < |lines| && NonBlank(lines[i]) && (forall j | 0 <= j < i :: !NonBlank(lines[j]))
        ensures NonBlankLines(lines) != [] && NonBlankLines(lines)[0] == lines[i]
      {
        if i > 0 {
          assert !NonBlank(lines[0]);
          assert lines[1..][i - 1] == lines[i];
          assert forall j | 0 <= j < i - 1 :: lines[1..][j] == lines[j + 1];
        }
      }
      if forall i | 0 <= i < |lines[1..]| :: !NonBlank(lines[1..][i]) {
        assert forall i | 1 <= i < |lines| :: lines[i] == lines[1..][i - 1];
      }
    }
  }

  /** The rule of `extractItemType` for one line: not a rarity tag, not a separator, no colon, longer than three characters. */
  predicate TypeCandidate(line: string) {
    !Contains(line, "Rarity:") && !Contains(line, "---") && !Contains(line, ":") && |line| > 3
  }

  /** The value `extractItemType` returns: the first candidate line, trimmed, or "Unknown". */
  function ItemTypeOf(lines: seq<string>): string
    decreases |lines|
  {
    if lines == [] then UnknownType
    else if TypeCandidate(lines[0]) then Trim(lines[0])
    else ItemTypeOf(lines[1..])
  }

  /** `extractItemType` is exactly "the trimmed first candidate line, else Unknown". */
  lemma {:induction false} ItemTypeIsFirstCandidate(lines: seq<string>)
    ensures forall i | 0 <= i < |lines| && TypeCandidate(lines[i]) && (forall j | 0 <= j < i :: !TypeCandidate(lines[j])) ::
      ItemTypeOf(lines) == Trim(lines[i])
    ensures (forall i | 0 <= i < |lines| :: !TypeCandidate(lines[i])) ==> ItemTypeOf(lines) == UnknownType
    decreases |lines|
  {
    if lines != [] {
      ItemTypeIsFirstCandidate(lines[1..]);
      forall i | 0 <= i < |lines| && TypeCandidate(lines[i]) && (forall j | 0 <= j < i :: !TypeCandidate(lines[j]))
        ensures ItemTypeOf(lines) == Trim(lines[i])
      {
        if i > 0 {
          assert !TypeCandidate(lines[0]);
          assert lines[1..][i - 1] == lines[i];
          assert forall j | 0 <= j < i - 1 :: lines[1..][j] == lines[j + 1];
        }
      }
      if forall i | 0 <= i < |lines| :: !TypeCandidate(lines[i]) {
        assert forall i | 0 <= i < |lines[1..]| :: lines[1..][i] == lines[i + 1];
      }
    }
  }

  /** `extractItemType(lines)`: a loop over the lines with an early return. */
  method ExtractItemType(lines: seq<string>) returns (t: string)
    ensures t == ItemTypeOf(lines)
    ensures forall i | 0 <= i < |lines| && TypeCandidate(lines[i]) && (forall j | 0 <= j < i :: !TypeCandidate(lines[j])) ::
      t == Trim(lines[i])
    ensures (forall i | 0 <= i < |lines| :: !TypeCandidate(lines[i])) ==> t == UnknownType
  {
    ItemTypeIsFirstCandidate(lines);
    var i := 0;
    while i < |lines|
      invariant 0 <= i <= |lines|
      invariant ItemTypeOf(lines[i..]) == ItemTypeOf(lines)
    {
      var line := lines[i];
      assert lines[i..][0] == line && lines[i..][1..] == lines[i + 1..];
      if Contains(line, "Rarity:") {
        i := i + 1;
        continue;
      }
      if Contains(line, "---") {
        i := i + 1;
        continue;
      }
      if !Contains(line, ":") && |line| > 3 {
        return Trim(line);
      }
      i := i + 1;
    }
    return UnknownType;
  }

  /** The rule of `extractMods` for one line. */
  predicate IsModLine(line: string) {
    Contains(line, "%") || Contains(line, "to ") || Contains(line, "increased") || Contains(line, "Adds")
  }

  /** The value `extractMods` returns: the modifier lines, trimmed, in order. */
  function ModsOf(lines: seq<string>): seq<string>
    decreases |lines|
  {
    if lines == [] then []
    else (if IsModLine(lines[0]) then [Trim(lines[0])] else []) + ModsOf(lines[1..])
  }

  /** Collecting modifiers distributes over concatenation, so their order is the order of the lines. */
  lemma {:induction false} ModsOfAppend(a: seq<string>, b: seq<string>)
    ensures ModsOf(a + b) == ModsOf(a) + ModsOf(b)
    decreases |a|
  {
    if a == [] {
      assert a + b == b;
    } else {
      var h := if IsModLine(a[0]) then [Trim(a[0])] else [];
      assert (a + b)[0] == a[0] && (a + b)[1..] == a[1..] + b;
      assert ModsOf(a + b) == h + ModsOf(a[1..] + b);
      ModsOfAppend(a[1..], b);
      assert ModsOf(a) == h + ModsOf(a[1..]);
    }
  }

  /** A string is a modifier exactly when some modifier line trims to it; there are never more modifiers than lines. */
  lemma {:induction false} ModsOfMembers(lines: seq<string>)
    ensures |ModsOf(lines)| <= |lines|
    ensures forall m :: m in ModsOf(lines) <==> exists i | 0 <= i < |lines| :: IsModLine(lines[i]) && Trim(lines[i]) == m
    decreases |lines|
  {
    if lines != [] {
      ModsOfMembers(lines[1..]);
      assert forall i | 1 <= i < |lines| :: lines[i] == lines[1..][i - 1];
      forall m | exists i | 0 <= i < |lines| :: IsModLine(lines[i]) && Trim(lines[i]) == m
        ensures m in ModsOf(lines)
      {
        var i :| 0 <= i < |lines| && IsModLine(lines[i]) && Trim(lines[i]) == m;
        if i > 0 {
          assert lines[1..][i - 1] == lines[i];
        }
      }
    }
  }

  /** `extractMods(lines)`: a loop that pushes every modifier line, trimmed. */
  method ExtractMods(lines: seq<string>) returns (mods: seq<string>)
    ensures mods == ModsOf(lines)
    ensures |mods| <= |lines|
  {
    ModsOfMembers(lines);
    mods := [];
    var i := 0;
    while i < |lines|
      invariant 0 <= i <= |lines|
      invariant mods + ModsOf(lines[i..]) == ModsOf(lines)
    {
      var line := lines[i];
      assert lines[i..][0] == line && lines[i..][1..] == lines[i + 1..];
      if Contains(line, "%") || Contains(line, "to ") || Contains(line, "increased") || Contains(line, "Adds") {
        mods := mods + [Trim(line)];
      }
      i := i + 1;
    }
    assert lines[i..] == [];
  }

  /** A line that contains a substring with a non-space character is not blank. */
  lemma ContainsNonBlank(line: string, sub: string, k: int)
    requires 0 <= k < |sub| && !IsSpace(sub[k]) && Contains(line, sub)
    ensures NonBlank(line)
  {
    var i :| 0 <= i <= |line| - |sub| && MatchesAt(line, sub, i);
    assert line[i..i + |sub|][k] == line[i + k];
    TrimEmptyIff(line);
  }

  /** Every modifier line is non-blank, so filtering blank lines first does not change the modifiers. */
  lemma {:induction false} ModsIgnoreBlankLines(lines: seq<string>)
    ensures ModsOf(NonBlankLines(lines)) == ModsOf(lines)
    decreases |lines|
  {
    if lines != [] {
      ModsIgnoreBlankLines(lines[1..]);
      var l := lines[0];
      if IsModLine(l) {
        if Contains(l, "%") { ContainsNonBlank(l, "%", 0); }
        else if Contains(l, "to ") { ContainsNonBlank(l, "to ", 0); }
        else if Contains(l, "increased") { ContainsNonBlank(l, "increased", 0); }
        else { ContainsNonBlank(l, "Adds", 0); }
      }
      var head := if NonBlank(l) then [l] else [];
      ModsOfAppend(head, NonBlankLines(lines[1..]));
    }
  }

  /**
   * `parseItemText(itemText)`: the lines of the text with blank lines dropped;
   * the name is the first of them verbatim (not trimmed, and not skipped when it
   * is a rarity tag), or "Unknown Item" when every line is blank.
   */
  function ParseItemText(itemText: string): (r: ParsedItem)
    ensures r.rawText == itemText
  {
    var lines := NonBlankLines(Split(itemText, '\n'));
    ParsedItem(NameOf(lines), ItemTypeOf(lines), ModsOf(lines), itemText)
  }

  /** `lines[0] || 'Unknown Item'` on lines that are all non-blank (hence non-empty). */
  function NameOf(lines: seq<string>): string {
    if |lines| > 0 then lines[0] else UnknownName
  }

  /** The parsed name is the first non-blank line, verbatim, or "Unknown Item" when every line is blank. */
  lemma ParsedName(itemText: string)
    ensures var lines := Split(itemText, '\n');
      forall i | 0 <= i < |lines| && NonBlank(lines[i]) && (forall j | 0 <= j < i :: !NonBlank(lines[j])) ::
        ParseItemText(itemText).name == lines[i]
    ensures var lines := Split(itemText, '\n');
      (forall i | 0 <= i < |lines| :: !NonBlank(lines[i])) ==> ParseItemText(itemText).name == UnknownName
  {
    var split := Split(itemText, '\n');
    NonBlankLinesHead(split);
    assert ParseItemText(itemText).name == NameOf(NonBlankLines(split));
  }

  /** The parsed modifiers are those of every line of the text, blank lines included, in order. */
  lemma ParsedMods(itemText: string)
    ensures ParseItemText(itemText).mods == ModsOf(Split(itemText, '\n'))
  {
    ModsIgnoreBlankLines(Split(itemText, '\n'));
  }

  /** The parsed type comes from the first line that is both non-blank and a type candidate. */
  lemma {:induction false} ItemTypeOfNonBlank(lines: seq<string>)
    ensures forall i | 0 <= i < |lines| && NonBlank(lines[i]) && TypeCandidate(lines[i]) &&
        (forall j | 0 <= j < i :: !(NonBlank(lines[j]) && TypeCandidate(lines[j]))) ::
      ItemTypeOf(NonBlankLines(lines)) == Trim(lines[i])
    ensures (forall i | 0 <= i < |lines| :: !(NonBlank(lines[i]) && TypeCandidate(lines[i]))) ==>
      ItemTypeOf(NonBlankLines(lines)) == UnknownType
    decreases |lines|
  {
    if lines != [] {
      ItemTypeOfNonBlank(lines[1..]);
      var l := lines[0];
      var rest := NonBlankLines(lines[1..]);
      if NonBlank(l) {
        assert NonBlankLines(lines) == [l] + rest;
        assert ([l] + rest)[0] == l && ([l] + rest)[1..] == rest;
      } else {
        assert NonBlankLines(lines) == rest;
      }
      forall i | 0 <= i < |lines| && NonBlank(lines[i]) && TypeCandidate(lines[i]) &&
          (forall j | 0 <= j < i :: !(NonBlank(lines[j]) && TypeCandidate(lines[j])))
        ensures ItemTypeOf(NonBlankLines(lines)) == Trim(lines[i])
      {
        if i > 0 {
          assert !(NonBlank(l) && TypeCandidate(l));
          assert lines[1..][i - 1] == lines[i];
          assert forall j | 0 <= j < i - 1 :: lines[1..][j] == lines[j + 1];
        }
      }
      if forall i | 0 <= i < |lines| :: !(NonBlank(lines[i]) && TypeCandidate(lines[i])) {
        assert forall i | 0 <= i < |lines| - 1 :: lines[1..][i] == lines[i + 1];
      }
    }
  }

  /** Lines without line feeds give a type without one. */
  lemma ItemTypeLineFree(lines: seq<string>)
    requires forall k | 0 <= k < |lines| :: '\n' !in lines[k]
    ensures '\n' !in ItemTypeOf(lines)
  {
    ItemTypeFromLines(lines);
    var t := ItemTypeOf(lines);
    if t != UnknownType {
      var i :| 0 <= i < |lines| && t == Trim(lines[i]);
      TrimChars(lines[i]);
    } else {
      assert forall i | 0 <= i < |t| :: t[i] != '\n';
    }
  }

  /** Lines without line feeds give modifiers without one. */
  lemma ModsLineFree(lines: seq<string>)
    requires forall k | 0 <= k < |lines| :: '\n' !in lines[k]
    ensures forall k | 0 <= k < |ModsOf(lines)| :: '\n' !in ModsOf(lines)[k]
  {
    ModsOfMembers(lines);
    forall m | m in ModsOf(lines)
      ensures '\n' !in m
    {
      var i :| 0 <= i < |lines| && IsModLine(lines[i]) && Trim(lines[i]) == m;
      TrimChars(lines[i]);
    }
  }

  /** Every field of a parsed item is free of line feeds, since it comes from the text's lines. */
  lemma ParsedItemLineFree(text: string)
    ensures var item := ParseItemText(text);
      && '\n' !in item.name && '\n' !in item.itemType
      && forall k | 0 <= k < |item.mods| :: '\n' !in item.mods[k]
  {
    var lines := NonBlankLines(Split(text, '\n'));
    NonBlankLinesLack(Split(text, '\n'), '\n');
    ItemTypeLineFree(lines);
    ModsLineFree(lines);
    var u := UnknownName;
    assert forall i | 0 <= i < |u| :: u[i] != '\n';
    assert ParseItemText(text) == ParsedItem(NameOf(lines), ItemTypeOf(lines), ModsOf(lines), text);
  }

  /** The type is "Unknown" or the trim of one of the lines. */
  lemma {:induction false} ItemTypeFromLines(lines: seq<string>)
    ensures ItemTypeOf(lines) == UnknownType || exists i | 0 <= i < |lines| :: ItemTypeOf(lines) == Trim(lines[i])
    decreases |lines|
  {
    if lines != [] && !TypeCandidate(lines[0]) {
      ItemTypeFromLines(lines[1..]);
      if ItemTypeOf(lines) != UnknownType {
        var i :| 0 <= i < |lines[1..]| && ItemTypeOf(lines[1..]) == Trim(lines[1..][i]);
        assert lines[1..][i] == lines[i + 1];
      }
    }
  }
}
