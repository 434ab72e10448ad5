/**
 * The sample item posted to `/api/price-check` by ai-bridge/demo.js (lines 20-40),
 * and what the item-text parser makes of it under its literal rules: the rarity
 * line becomes the name, "Bone Sword" the type, and five lines the modifiers.
 */
module SampleItem {
  import opened JsStrings
  import opened ItemText

  /** A sample line that holds no line feed and starts with a visible character. */
  predicate Visible(line: string) {
    '\n' !in line && |line| > 0 && !IsSpace(line[0])
  }

  /** A visible line that is not a modifier line. */
  predicate Plain(line: string) {
    Visible(line) && !IsModLine(line)
  }

  /** A visible modifier line without surrounding white space. */
  predicate Modifier(line: string) {
    Visible(line) && IsModLine(line) && Trim(line) == line
  }

  const RarityLine: string := "Rarity: Rare"
  const BaseLine: string := "Bone Sword"
  const Rule: string := "---"
  const ClassLine: string := "One Handed Sword"
  const DamageLine: string := "Physical Damage: 15-30"
  const CritLine: string := "Critical Strike Chance: 5%"
  /** The attack-speed line, in three pieces around where "Adds" and "to " would have to start. */
  const AttackLine: string := AttackHead + AttackMid + AttackTail
  const AttackHead: string := "A"
  const AttackMid: string := "ttack Speed: 1.3 att"
  const AttackTail: string := "acks per second"
  const RequirementsLine: string := "Requirements:"
  const LevelLine: string := "Level: 12"
  const StrLine: string := "Str: 25"
  const DexLine: string := "Dex: 25"
  /** The sockets line ends with a space. */
  const SocketsLine: string := "Sockets: R-R "
  const ItemLevelLine: string := "Item Level: 15"
  const PhysicalAffix: string := "+40% increased Physical Damage"
  const SpeedAffix: string := "10% increased Attack Speed"
  const AddsAffix: string := "Adds 5-10 Physical Damage"
  const LifeAffix: string := "+15 to maximum Life"

  /** The first five lines: the rarity tag, the base type and the weapon header. */
  const Header: seq<string> := [RarityLine, BaseLine, Rule, ClassLine, DamageLine]

  /** Attack speed, requirements, sockets and item level. */
  const Middle: seq<string> := [
    AttackLine, Rule, RequirementsLine, LevelLine, StrLine, DexLine,
    Rule, SocketsLine, Rule, ItemLevelLine, Rule ]

  /** The four explicit affixes. */
  const Affixes: seq<string> := [PhysicalAffix, SpeedAffix, AddsAffix, LifeAffix]

  /** The sample's lines; the critical-strike line is the only modifier-like line before the affixes. */
  const Lines: seq<string> := Header + [CritLine] + Middle + Affixes

  /** The sample's text: its lines joined with line feeds, as in the demo's template literal. */
  const Text: string := Join(Lines, "\n")

  /** The characters `NotModLine` looks for in a line: a line feed, a percent sign and one character of each word trigger. */
  predicate Excluded(c: char, kTo: int, kInc: int, kAdds: int)
    requires 0 <= kTo < 3 && 0 <= kInc < 9 && 0 <= kAdds < 4
  {
    c == '\n' || c == '%' || c == "to "[kTo] || c == "increased"[kInc] || c == "Adds"[kAdds]
  }

  /** A line none of whose modifier triggers occurs, shown by a missing character for each trigger; it holds no line feed either. */
  lemma NotModLine(line: string, kTo: int, kInc: int, kAdds: int)
    requires 0 <= kTo < 3 && 0 <= kInc < 9 && 0 <= kAdds < 4
    requires forall i | 0 <= i < |line| :: !Excluded(line[i], kTo, kInc, kAdds)
    ensures '\n' !in line && !IsModLine(line)
  {
    MissingCharNotContains(line, "%", 0);
    MissingCharNotContains(line, "to ", kTo);
    MissingCharNotContains(line, "increased", kInc);
    MissingCharNotContains(line, "Adds", kAdds);
  }

  lemma RarityLinePlain() ensures Plain(RarityLine) { NotModLine(RarityLine, 1, 1, 0); }
  lemma BaseLinePlain() ensures Plain(BaseLine) { NotModLine(BaseLine, 0, 0, 0); }
  lemma RulePlain() ensures Plain(Rule) { NotModLine(Rule, 0, 0, 0); }
  lemma ClassLinePlain() ensures Plain(ClassLine) { NotModLine(ClassLine, 0, 0, 0); }
  lemma DamageLinePlain() ensures Plain(DamageLine) { NotModLine(DamageLine, 0, 1, 0); }
  lemma RequirementsLinePlain() ensures Plain(RequirementsLine) { NotModLine(RequirementsLine, 1, 2, 0); }
  lemma LevelLinePlain() ensures Plain(LevelLine) { NotModLine(LevelLine, 0, 0, 0); }
  lemma StrLinePlain() ensures Plain(StrLine) { NotModLine(StrLine, 1, 0, 0); }
  lemma DexLinePlain() ensures Plain(DexLine) { NotModLine(DexLine, 0, 0, 0); }
  lemma ItemLevelLinePlain() ensures Plain(ItemLevelLine) { NotModLine(ItemLevelLine, 1, 2, 0); }

  /** The attack-speed line holds every character of "to ", but not the word. */
  lemma AttackLineNoTo()
    ensures !Contains(AttackLine, "to ")
  {
    var a, b := AttackHead + AttackMid, AttackTail;
    var t := a + b[..2];
    assert forall i | 0 <= i < |t| :: t[i] != 'o';
    MissingCharNotContains(t, "to ", 1);
    assert forall i | 0 <= i < |b| :: b[i] != 't';
    MissingCharNotContains(b, "to ", 0);
    ContainsSplit(a, b, "to ", 2);
  }

  /** The attack-speed line holds every character of "Adds", but not the word. */
  lemma AttackLineNoAdds()
    ensures !Contains(AttackLine, "Adds")
  {
    var a, b := AttackHead, AttackMid + AttackTail;
    assert a + b == AttackLine;
    var t := a + b[..3];
    assert forall i | 0 <= i < |t| :: t[i] != 'd';
    MissingCharNotContains(t, "Adds", 1);
    assert forall i | 0 <= i < |b| :: b[i] != 'A';
    MissingCharNotContains(b, "Adds", 0);
    ContainsSplit(a, b, "Adds", 3);
  }

  lemma AttackLinePlain()
    ensures Plain(AttackLine)
  {
    assert forall i | 0 <= i < |AttackLine| :: AttackLine[i] != '\n' && AttackLine[i] != '%' && AttackLine[i] != 'i';
    MissingCharNotContains(AttackLine, "%", 0);
    MissingCharNotContains(AttackLine, "increased", 0);
    AttackLineNoTo();
    AttackLineNoAdds();
  }

  /** The sockets line holds every character of "to ", but not the word. */
  lemma SocketsLineNoTo()
    ensures !Contains(SocketsLine, "to ")
  {
    var a, b := "So", "ckets: R-R ";
    assert a + b == SocketsLine;
    assert b[..2] == "ck";
    assert a + b[..2] == "Sock";
    MissingCharNotContains(a + b[..2], "to ", 0);
    MissingCharNotContains(b, "to ", 1);
    ContainsSplit(a, b, "to ", 2);
  }

  lemma SocketsLinePlain()
    ensures Plain(SocketsLine)
  {
    MissingCharNotContains(SocketsLine, "%", 0);
    MissingCharNotContains(SocketsLine, "increased", 0);
    MissingCharNotContains(SocketsLine, "Adds", 0);
    SocketsLineNoTo();
  }

  /** A line with a modifier trigger at a known position and no white space at its ends is kept as it is. */
  lemma ModLineKept(line: string, sub: string, i: int)
    requires sub == "%" || sub == "to " || sub == "Adds"
    requires 0 <= i && i + |sub| <= |line| && line[i..i + |sub|] == sub
    requires !IsSpace(line[0]) && !IsSpace(line[|line| - 1])
    ensures IsModLine(line) && Trim(line) == line
  {
    ContainsAt(line, sub, i);
    TrimIdentity(line);
  }

  /** The same for a line whose trigger is a percent sign at a known position. */
  lemma PercentLineKept(line: string, i: int)
    requires 0 <= i < |line| && line[i] == '%'
    requires !IsSpace(line[0]) && !IsSpace(line[|line| - 1])
    ensures IsModLine(line) && Trim(line) == line
  {
    assert line[i..i + 1][0] == '%';
    ModLineKept(line, "%", i);
  }

  lemma CritLineModifier() ensures Modifier(CritLine) { PercentLineKept(CritLine, 25); }
  lemma PhysicalAffixModifier() ensures Modifier(PhysicalAffix) { PercentLineKept(PhysicalAffix, 3); }
  lemma SpeedAffixModifier() ensures Modifier(SpeedAffix) { PercentLineKept(SpeedAffix, 2); }
  lemma AddsAffixModifier() ensures Modifier(AddsAffix) { ModLineKept(AddsAffix, "Adds", 0); }
  lemma LifeAffixModifier() ensures Modifier(LifeAffix) { ModLineKept(LifeAffix, "to ", 4); }

  lemma HeaderPlain()
    ensures forall k | 0 <= k < |Header| :: Plain(Header[k])
  {
    RarityLinePlain();
    BaseLinePlain();
    RulePlain();
    ClassLinePlain();
    DamageLinePlain();
  }

  lemma MiddlePlain()
    ensures forall k | 0 <= k < |Middle| :: Plain(Middle[k])
  {
    AttackLinePlain();
    RulePlain();
    RequirementsLinePlain();
    LevelLinePlain();
    StrLinePlain();
    DexLinePlain();
    SocketsLinePlain();
    ItemLevelLinePlain();
  }

  lemma AffixesModifiers()
    ensures forall k | 0 <= k < |Affixes| :: Modifier(Affixes[k])
  {
    PhysicalAffixModifier();
    SpeedAffixModifier();
    AddsAffixModifier();
    LifeAffixModifier();
  }

  /** Every line of the sample is visible. */
  lemma LinesVisible()
    ensures forall k | 0 <= k < |Lines| :: Visible(Lines[k])
  {
    HeaderPlain();
    CritLineModifier();
    MiddlePlain();
    AffixesModifiers();
    var l := Lines;
    assert forall k | 0 <= k < |Header| :: l[k] == Header[k];
    assert l[|Header|] == CritLine;
    assert forall k | 0 <= k < |Middle| :: l[|Header| + 1 + k] == Middle[k];
    assert forall k | 0 <= k < |Affixes| :: l[|Header| + 1 + |Middle| + k] == Affixes[k];
  }

  /** Splitting the text on line feeds gives back the sample's lines. */
  lemma TextSplits()
    ensures Split(Text, '\n') == Lines
  {
    LinesVisible();
    SplitJoin(Lines, '\n');
  }

  /** Lines that start with a non-space character all survive the blank-line filter. */
  lemma {:induction false} AllNonBlank(lines: seq<string>)
    requires forall k | 0 <= k < |lines| :: |lines[k]| > 0 && !IsSpace(lines[k][0])
    ensures NonBlankLines(lines) == lines
    decreases |lines|
  {
    if lines != [] {
      AllNonBlank(lines[1..]);
      TrimEmptyIff(lines[0]);
      assert !AllSpace(lines[0]);
      assert [lines[0]] + lines[1..] == lines;
    }
  }

  /** Lines none of which is a modifier line contribute no modifiers. */
  lemma {:induction false} NoMods(lines: seq<string>)
    requires forall k | 0 <= k < |lines| :: !IsModLine(lines[k])
    ensures ModsOf(lines) == []
    decreases |lines|
  {
    if lines != [] {
      NoMods(lines[1..]);
    }
  }

  /** Lines that are all modifier lines without surrounding white space are all kept. */
  lemma {:induction false} AllMods(lines: seq<string>)
    requires forall k | 0 <= k < |lines| :: IsModLine(lines[k]) && Trim(lines[k]) == lines[k]
    ensures ModsOf(lines) == lines
    decreases |lines|
  {
    if lines != [] {
      AllMods(lines[1..]);
      assert [lines[0]] + lines[1..] == lines;
    }
  }

  lemma HeaderMods()
    ensures ModsOf(Header + [CritLine]) == [CritLine]
  {
    HeaderPlain();
    NoMods(Header);
    CritLineModifier();
    AllMods([CritLine]);
    ModsOfAppend(Header, [CritLine]);
  }

  lemma MiddleMods()
    ensures ModsOf(Header + [CritLine] + Middle) == [CritLine]
  {
    HeaderMods();
    MiddlePlain();
    NoMods(Middle);
    ModsOfAppend(Header + [CritLine], Middle);
  }

  /** The sample's modifiers: the critical-strike line, then the four affixes. */
  lemma SampleMods()
    ensures ModsOf(Lines) == [CritLine] + Affixes
  {
    MiddleMods();
    AffixesModifiers();
    AllMods(Affixes);
    ModsOfAppend(Header + [CritLine] + Middle, Affixes);
  }

  /** The rarity line is skipped as a type, and "Bone Sword" is taken. */
  lemma SampleType()
    ensures ItemTypeOf(Lines) == "Bone Sword"
  {
    var l := Lines;
    assert l[0] == RarityLine && l[1] == BaseLine;
    ContainsAt(RarityLine, "Rarity:", 0);
    assert forall i | 0 <= i < |BaseLine| :: BaseLine[i] != 'R' && BaseLine[i] != '-' && BaseLine[i] != ':';
    MissingCharNotContains(BaseLine, "Rarity:", 0);
    MissingCharNotContains(BaseLine, "---", 0);
    MissingCharNotContains(BaseLine, ":", 0);
    TrimIdentity(BaseLine);
    assert l[1..][0] == BaseLine;
  }

  /** A text whose lines are all non-blank parses to its first line, and the type and modifiers of all its lines. */
  lemma ParseOfVisibleLines(text: string, lines: seq<string>)
    requires Split(text, '\n') == lines
    requires forall k | 0 <= k < |lines| :: Visible(lines[k])
    ensures ParseItemText(text) == ParsedItem(lines[0], ItemTypeOf(lines), ModsOf(lines), text)
  {
    AllNonBlank(lines);
  }

  /** The sample's name is its rarity line. */
  lemma SampleParsedName()
    ensures ParseItemText(Text).name == "Rarity: Rare"
  {
    TextSplits();
    LinesVisible();
    ParseOfVisibleLines(Text, Lines);
    assert Lines[0] == "Rarity: Rare";
  }

  lemma SampleParsedType()
    ensures ParseItemText(Text).itemType == "Bone Sword"
  {
    TextSplits();
    LinesVisible();
    ParseOfVisibleLines(Text, Lines);
    SampleType();
  }

  lemma SampleParsedMods()
    ensures ParseItemText(Text).mods == [CritLine] + Affixes
  {
    TextSplits();
    LinesVisible();
    ParseOfVisibleLines(Text, Lines);
    SampleMods();
  }

  /**
   * The demo's sample item parses, under the code's literal rules, to the name
   * "Rarity: Rare", the type "Bone Sword" and five modifiers.
   */
  lemma SampleItemParse()
    ensures ParseItemText(Text) == ParsedItem(
      "Rarity: Rare",
      "Bone Sword",
      [ "Critical Strike Chance: 5%",
        "+40% increased Physical Damage",
        "10% increased Attack Speed",
        "Adds 5-10 Physical Damage",
        "+15 to maximum Life" ],
      Text)
  {
    SampleParsedName();
    SampleParsedType();
    SampleParsedMods();
    SampleModsLiteral();
    var p := ParseItemText(Text);
    assert p == ParsedItem(p.name, p.itemType, p.mods, p.rawText);
  }

  lemma SampleModsLiteral()
    ensures [CritLine] + Affixes == [ "Critical Strike Chance: 5%",
        "+40% increased Physical Damage",
        "10% increased Attack Speed",
        "Adds 5-10 Physical Damage",
        "+15 to maximum Life" ]
  {
  }
}
