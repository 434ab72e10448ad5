/**
 * The enhanced-features enabler: a one-shot script that loads the overlay's
 * configuration, switches on a fixed set of widget options, global settings
 * and default chat commands, collects one change line per modified value and
 * writes the file back only when something changed.
 *
 * The configuration is split into its three parts: the top-level settings,
 * the `widgets` array and the `commands` array (each `undefined` when absent).
 */
module EnhancedFeatures {
  import opened JsValues
  import opened JsStrings

  // ---------------------------------------------------------------------------
  // Property reads and ordered entry lists
  // ---------------------------------------------------------------------------

  /** `o[k]`: `None` when the property is absent (reads as `undefined`). */
  function Get(o: Obj, k: string): Option<Json> {
    if k in o then Some(o[k]) else None
  }

  /** Two objects with the same property reads are the same object value. */
  lemma ObjExt(a: Obj, b: Obj)
    requires forall k :: Get(a, k) == Get(b, k)
    ensures a == b
  {
    forall k | k in a ensures k in b && a[k] == b[k] {
      assert Get(a, k) == Get(b, k);
    }
    forall k | k in b ensures k in a {
      assert Get(a, k) == Get(b, k);
    }
  }

  /** One `[key, value]` pair of `Object.entries` over an enhancement table. */
  datatype Entry = Entry(key: string, value: Json)

  predicate Listed(es: seq<Entry>, k: string) {
    exists i | 0 <= i < |es| :: es[i].key == k
  }

  /** The keys of an object literal are distinct. */
  predicate DistinctKeys(es: seq<Entry>) {
    forall i, j | 0 <= i < j < |es| :: es[i].key != es[j].key
  }

  /** The object after `o[key] = value` for every entry, in order. */
  function Apply(o: Obj, es: seq<Entry>): Obj
    decreases |es|
  {
    if es == [] then o
    else
      var e := es[|es| - 1];
      Apply(o, es[..|es| - 1])[e.key := e.value]
  }

  const TrueText := "true"
  const FalseText := "false"
  const EqualsText := " = "

  /**
   * Template-literal rendering `${value}` of the values the tables hold:
   * booleans, strings and whole numbers.
   */
  function Render(v: Json): string {
    match v
    case JBool(b) => if b then TrueText else FalseText
    case JNum(n) => IntToString(n.Floor)
    case JStr(s) => s
    case _ => []
  }

  /** The change line `<prefix><key> = <value>`. */
  function ChangeLine(prefix: string, e: Entry): string {
    prefix + e.key + EqualsText + Render(e.value)
  }

  /**
   * The change lines of the `forEach` over the entries: an entry records a line
   * when the value it finds (`!==`, strict inequality) differs from its target.
   */
  function Changes(prefix: string, o: Obj, es: seq<Entry>): seq<string>
    decreases |es|
  {
    if es == [] then []
    else
      var init := es[..|es| - 1];
      var e := es[|es| - 1];
      Changes(prefix, o, init)
        + (if Get(Apply(o, init), e.key) != Some(e.value) then [ChangeLine(prefix, e)] else [])
  }

  /** Independent reference: the entries whose value in the ORIGINAL object differs. */
  function Differing(o: Obj, es: seq<Entry>): seq<Entry>
    decreases |es|
  {
    if es == [] then []
    else
      var e := es[|es| - 1];
      Differing(o, es[..|es| - 1]) + (if Get(o, e.key) != Some(e.value) then [e] else [])
  }

  function ChangeLines(prefix: string, es: seq<Entry>): seq<string>
    decreases |es|
  {
    if es == [] then [] else ChangeLines(prefix, es[..|es| - 1]) + [ChangeLine(prefix, es[|es| - 1])]
  }

  /** Every entry's key holds its target value afterwards. */
  lemma {:induction false} ApplyTargets(o: Obj, es: seq<Entry>)
    requires DistinctKeys(es)
    ensures forall i | 0 <= i < |es| :: Get(Apply(o, es), es[i].key) == Some(es[i].value)
    decreases |es|
  {
    if es != [] {
      var init := es[..|es| - 1];
      assert DistinctKeys(init) by {
        forall i, j | 0 <= i < j < |init| ensures init[i].key != init[j].key {
          assert init[i] == es[i] && init[j] == es[j];
        }
      }
      ApplyTargets(o, init);
      forall i | 0 <= i < |es| ensures Get(Apply(o, es), es[i].key) == Some(es[i].value) {
        if i < |es| - 1 {
          assert init[i] == es[i];
          assert es[i].key != es[|es| - 1].key;
        }
      }
    }
  }

  /** Properties outside the table keep their values. */
  lemma {:induction false} ApplyFrame(o: Obj, es: seq<Entry>, k: string)
    requires !Listed(es, k)
    ensures Get(Apply(o, es), k) == Get(o, k)
    decreases |es|
  {
    if es != [] {
      var init := es[..|es| - 1];
      assert es[|es| - 1].key != k;
      assert !Listed(init, k) by {
        forall i | 0 <= i < |init| ensures init[i].key != k {
          assert init[i] == es[i];
        }
      }
      ApplyFrame(o, init, k);
    }
  }

  lemma ChangeLinesSnoc(prefix: string, d: seq<Entry>, e: Entry)
    ensures ChangeLines(prefix, d + [e]) == ChangeLines(prefix, d) + [ChangeLine(prefix, e)]
  {
    assert (d + [e])[..|d|] == d;
  }

  /**
   * A change line is recorded for exactly the entries whose original value
   * differed from the target, in table order.
   */
  lemma {:induction false} ChangesOfDiffering(prefix: string, o: Obj, es: seq<Entry>)
    requires DistinctKeys(es)
    ensures Changes(prefix, o, es) == ChangeLines(prefix, Differing(o, es))
    decreases |es|
  {
    if es != [] {
      var init := es[..|es| - 1];
      var e := es[|es| - 1];
      assert DistinctKeys(init) by {
        forall i, j | 0 <= i < j < |init| ensures init[i].key != init[j].key {
          assert init[i] == es[i] && init[j] == es[j];
        }
      }
      assert !Listed(init, e.key) by {
        forall i | 0 <= i < |init| ensures init[i].key != e.key {
          assert init[i] == es[i];
        }
      }
      ChangesOfDiffering(prefix, o, init);
      ApplyFrame(o, init, e.key);
      if Get(o, e.key) != Some(e.value) {
        ChangeLinesSnoc(prefix, Differing(o, init), e);
      } else {
        assert Differing(o, init) + [] == Differing(o, init);
      }
    }
  }

  /** The entries `Differing` keeps are the table's entries whose original value differs. */
  lemma {:induction false} DifferingMembers(o: Obj, es: seq<Entry>, e: Entry)
    ensures e in Differing(o, es) <==> e in es && Get(o, e.key) != Some(e.value)
    decreases |es|
  {
    if es != [] {
      var init := es[..|es| - 1];
      DifferingMembers(o, init, e);
      assert es == init + [es[|es| - 1]];
    }
  }

  /** When every target already holds, the merge changes nothing and records nothing. */
  lemma {:induction false} NoopWhenHeld(prefix: string, o: Obj, es: seq<Entry>)
    requires forall i | 0 <= i < |es| :: Get(o, es[i].key) == Some(es[i].value)
    ensures Apply(o, es) == o
    ensures Changes(prefix, o, es) == []
    decreases |es|
  {
    if es != [] {
      var init := es[..|es| - 1];
      var e := es[|es| - 1];
      assert forall i | 0 <= i < |init| :: init[i] == es[i];
      NoopWhenHeld(prefix, o, init);
      assert Get(o, e.key) == Some(e.value);
      ObjExt(o[e.key := e.value], o);
    }
  }

  /** When nothing is recorded, nothing was changed. */
  lemma {:induction false} UnchangedWhenSilent(prefix: string, o: Obj, es: seq<Entry>)
    requires Changes(prefix, o, es) == []
    ensures Apply(o, es) == o
    decreases |es|
  {
    if es != [] {
      var init := es[..|es| - 1];
      var e := es[|es| - 1];
      UnchangedWhenSilent(prefix, o, init);
      assert Get(Apply(o, init), e.key) == Some(e.value);
      ObjExt(o[e.key := e.value], o);
    }
  }

  /** Running the table a second time changes nothing and records nothing. */
  lemma ApplyIdempotent(prefix: string, o: Obj, es: seq<Entry>)
    requires DistinctKeys(es)
    ensures Apply(Apply(o, es), es) == Apply(o, es)
    ensures Changes(prefix, Apply(o, es), es) == []
  {
    ApplyTargets(o, es);
    NoopWhenHeld(prefix, Apply(o, es), es);
  }

  /** The `forEach` over one enhancement table, applied to the object `o`. */
  method ApplyEntries(o: Obj, prefix: string, es: seq<Entry>) returns (r: Obj, lines: seq<string>)
    ensures r == Apply(o, es)
    ensures lines == Changes(prefix, o, es)
  {
    r, lines := o, [];
    for i := 0 to |es|
      invariant r == Apply(o, es[..i])
      invariant lines == Changes(prefix, o, es[..i])
    {
      var e := es[i];
      assert es[..i + 1][..i] == es[..i];
      if Get(r, e.key) != Some(e.value) {
        r := r[e.key := e.value];
        lines := lines + [ChangeLine(prefix, e)];
      } else {
        ObjExt(r[e.key := e.value], r);
      }
    }
    assert es[..|es|] == es;
  }

  // ---------------------------------------------------------------------------
  // Widgets
  // ---------------------------------------------------------------------------

  const WmType := "wmType"

  predicate OfType(w: Obj, t: string) {
    Get(w, WmType) == Some(JStr(t))
  }

  /** `widgets.find(w => w.wmType === t)`: the index of the first widget of type `t`. */
  function FindWidget(ws: seq<Obj>, t: string): (r: Option<nat>)
    ensures r.Some? ==> r.value < |ws| && OfType(ws[r.value], t)
    ensures r.Some? ==> forall j | 0 <= j < r.value :: !OfType(ws[j], t)
    ensures r.None? ==> forall j | 0 <= j < |ws| :: !OfType(ws[j], t)
  {
    if ws == [] then None
    else if OfType(ws[0], t) then Some(0)
    else
      match FindWidget(ws[1..], t)
      case None => None
      case Some(j) => Some(j + 1)
  }

  /** Replacing a widget by one of the same type does not change what `find` returns. */
  lemma FindAfterUpdate(ws: seq<Obj>, p: nat, w: Obj, t: string)
    requires p < |ws| && Get(w, WmType) == Get(ws[p], WmType)
    ensures FindWidget(ws[p := w], t) == FindWidget(ws, t)
  {
    var ws' := ws[p := w];
    assert forall j | 0 <= j < |ws| :: OfType(ws'[j], t) == OfType(ws[j], t);
    var a, b := FindWidget(ws', t), FindWidget(ws, t);
    if a.Some? && b.Some? {
      assert !(a.value < b.value) && !(b.value < a.value);
    }
  }

  /** What a widget section does to the widget it finds. */
  datatype Step =
    | Enhance(prefix: string, entries: seq<Entry>)     // a table applied with `!==`
    | FillIfUnset(key: string, value: Json, line: string)  // `if (!w[key]) w[key] = value`

  function StepObj(w: Obj, s: Step): Obj {
    match s
    case Enhance(_, es) => Apply(w, es)
    case FillIfUnset(key, value, _) => if TruthyAt(w, key) then w else w[key := value]
  }

  function StepChanges(w: Obj, s: Step): seq<string> {
    match s
    case Enhance(prefix, es) => Changes(prefix, w, es)
    case FillIfUnset(key, _, line) => if TruthyAt(w, key) then [] else [line]
  }

  /** The step never writes the widget's `wmType`. */
  predicate KeepsType(s: Step) {
    match s
    case Enhance(_, es) => !Listed(es, WmType)
    case FillIfUnset(key, _, _) => key != WmType
  }

  /** The step reaches a fixed point after one application. */
  predicate Settles(s: Step) {
    match s
    case Enhance(_, es) => DistinctKeys(es)
    case FillIfUnset(_, value, _) => Truthy(value)
  }

  /** A set-if-unset step leaves a truthy value alone and otherwise writes only its key. */
  lemma FillIfUnsetEffect(w: Obj, key: string, value: Json, line: string, k: string)
    ensures var s := FillIfUnset(key, value, line);
      (TruthyAt(w, key) ==> StepObj(w, s) == w && StepChanges(w, s) == [])
      && (!TruthyAt(w, key) ==> Get(StepObj(w, s), key) == Some(value) && StepChanges(w, s) == [line])
      && (k != key ==> Get(StepObj(w, s), k) == Get(w, k))
  {
  }

  lemma StepKeepsType(w: Obj, s: Step)
    requires KeepsType(s)
    ensures Get(StepObj(w, s), WmType) == Get(w, WmType)
  {
    if s.Enhance? {
      ApplyFrame(w, s.entries, WmType);
    }
  }

  lemma StepSettles(w: Obj, s: Step)
    requires Settles(s)
    ensures StepObj(StepObj(w, s), s) == StepObj(w, s)
    ensures StepChanges(StepObj(w, s), s) == []
  {
    if s.Enhance? {
      ApplyIdempotent(s.prefix, w, s.entries);
    }
  }

  lemma StepSilentUnchanged(w: Obj, s: Step)
    requires StepChanges(w, s) == []
    ensures StepObj(w, s) == w
  {
    if s.Enhance? {
      UnchangedWhenSilent(s.prefix, w, s.entries);
    }
  }

  /** One widget block of the script: find the widget of a type, then run its step. */
  datatype Section = Section(wmType: string, step: Step)

  function WidgetStep(ws: Option<seq<Obj>>, sec: Section): Option<seq<Obj>> {
    if ws.None? then ws
    else
      match FindWidget(ws.value, sec.wmType)
      case None => ws
      case Some(p) => Some(ws.value[p := StepObj(ws.value[p], sec.step)])
  }

  function WidgetStepChanges(ws: Option<seq<Obj>>, sec: Section): seq<string> {
    if ws.None? then []
    else
      match FindWidget(ws.value, sec.wmType)
      case None => []
      case Some(p) => StepChanges(ws.value[p], sec.step)
  }

  /**
   * Only the first widget of the section's type can change; with no such widget
   * (or no widgets array) nothing changes and nothing is recorded.
   */
  lemma WidgetStepFrame(ws: Option<seq<Obj>>, sec: Section)
    ensures WidgetStep(ws, sec).None? <==> ws.None?
    ensures ws.Some? ==> |WidgetStep(ws, sec).value| == |ws.value|
    ensures ws.Some? ==> forall j | 0 <= j < |ws.value| && Some(j) != FindWidget(ws.value, sec.wmType)
      :: WidgetStep(ws, sec).value[j] == ws.value[j]
    ensures (ws.None? || FindWidget(ws.value, sec.wmType).None?)
      ==> WidgetStep(ws, sec) == ws && WidgetStepChanges(ws, sec) == []
  {
  }

  /** The widget blocks in script order. */
  function Widgets(ws: Option<seq<Obj>>, secs: seq<Section>): Option<seq<Obj>>
    decreases |secs|
  {
    if secs == [] then ws else Widgets(WidgetStep(ws, secs[0]), secs[1..])
  }

  function WidgetsChanges(ws: Option<seq<Obj>>, secs: seq<Section>): seq<string>
    decreases |secs|
  {
    if secs == [] then []
    else WidgetStepChanges(ws, secs[0]) + WidgetsChanges(WidgetStep(ws, secs[0]), secs[1..])
  }

  /** The section lists the script uses: distinct widget types, type-preserving, settling steps. */
  predicate SectionsOk(secs: seq<Section>) {
    (forall i | 0 <= i < |secs| :: KeepsType(secs[i].step) && Settles(secs[i].step))
    && forall i, j | 0 <= i < j < |secs| :: secs[i].wmType != secs[j].wmType
  }

  /** The section's widget (if any) is at its fixed point. */
  predicate AtRest(ws: Option<seq<Obj>>, sec: Section) {
    ws.None? || match FindWidget(ws.value, sec.wmType)
      case None => true
      case Some(p) => (StepObj(ws.value[p], sec.step) == ws.value[p]
        && StepChanges(ws.value[p], sec.step) == [])
  }

  lemma AtRestStep(ws: Option<seq<Obj>>, sec: Section)
    requires AtRest(ws, sec)
    ensures WidgetStep(ws, sec) == ws && WidgetStepChanges(ws, sec) == []
  {
    if ws.Some? && FindWidget(ws.value, sec.wmType).Some? {
      var p := FindWidget(ws.value, sec.wmType).value;
      assert ws.value[p := ws.value[p]] == ws.value;
    }
  }

  /** A step of another type keeps a section at rest. */
  lemma AtRestPreserved(ws: Option<seq<Obj>>, s: Section, sec: Section)
    requires AtRest(ws, s) && KeepsType(sec.step) && sec.wmType != s.wmType
    ensures AtRest(WidgetStep(ws, sec), s)
  {
    if ws.Some? && FindWidget(ws.value, sec.wmType).Some? {
      var q := FindWidget(ws.value, sec.wmType).value;
      StepKeepsType(ws.value[q], sec.step);
      FindAfterUpdate(ws.value, q, StepObj(ws.value[q], sec.step), s.wmType);
    }
  }

  lemma {:induction false} AtRestPreservedAll(ws: Option<seq<Obj>>, s: Section, secs: seq<Section>)
    requires AtRest(ws, s)
    requires forall i | 0 <= i < |secs| :: KeepsType(secs[i].step) && secs[i].wmType != s.wmType
    ensures AtRest(Widgets(ws, secs), s)
    decreases |secs|
  {
    if secs != [] {
      AtRestPreserved(ws, s, secs[0]);
      assert forall i | 0 <= i < |secs[1..]| :: secs[1..][i] == secs[i + 1];
      AtRestPreservedAll(WidgetStep(ws, secs[0]), s, secs[1..]);
    }
  }

  /** After the widget blocks, every block's widget is at its fixed point. */
  lemma {:induction false} WidgetsAtRest(ws: Option<seq<Obj>>, secs: seq<Section>)
    requires SectionsOk(secs)
    ensures forall i | 0 <= i < |secs| :: AtRest(Widgets(ws, secs), secs[i])
    decreases |secs|
  {
    if secs != [] {
      var s, rest := secs[0], secs[1..];
      var ws1 := WidgetStep(ws, s);
      assert forall i | 0 <= i < |rest| :: rest[i] == secs[i + 1];
      assert SectionsOk(rest);
      WidgetsAtRest(ws1, rest);
      assert AtRest(ws1, s) by {
        if ws.Some? && FindWidget(ws.value, s.wmType).Some? {
          var p := FindWidget(ws.value, s.wmType).value;
          StepKeepsType(ws.value[p], s.step);
          FindAfterUpdate(ws.value, p, StepObj(ws.value[p], s.step), s.wmType);
          StepSettles(ws.value[p], s.step);
        }
      }
      AtRestPreservedAll(ws1, s, rest);
      forall i | 0 <= i < |secs| ensures AtRest(Widgets(ws, secs), secs[i]) {
        if i > 0 {
          assert secs[i] == rest[i - 1];
        }
      }
    }
  }

  lemma {:induction false} WidgetsNoop(ws: Option<seq<Obj>>, secs: seq<Section>)
    requires forall i | 0 <= i < |secs| :: AtRest(ws, secs[i])
    ensures Widgets(ws, secs) == ws && WidgetsChanges(ws, secs) == []
    decreases |secs|
  {
    if secs != [] {
      AtRestStep(ws, secs[0]);
      assert forall i | 0 <= i < |secs[1..]| :: secs[1..][i] == secs[i + 1];
      WidgetsNoop(ws, secs[1..]);
    }
  }

  /** Running the widget blocks on their own output changes and records nothing. */
  lemma WidgetsIdempotent(ws: Option<seq<Obj>>, secs: seq<Section>)
    requires SectionsOk(secs)
    ensures Widgets(Widgets(ws, secs), secs) == Widgets(ws, secs)
    ensures WidgetsChanges(Widgets(ws, secs), secs) == []
  {
    WidgetsAtRest(ws, secs);
    WidgetsNoop(Widgets(ws, secs), secs);
  }

  /** No recorded widget change means the widgets are as they were. */
  lemma {:induction false} WidgetsSilentUnchanged(ws: Option<seq<Obj>>, secs: seq<Section>)
    requires WidgetsChanges(ws, secs) == []
    ensures Widgets(ws, secs) == ws
    decreases |secs|
  {
    if secs != [] {
      var sec := secs[0];
      if ws.Some? && FindWidget(ws.value, sec.wmType).Some? {
        var p := FindWidget(ws.value, sec.wmType).value;
        StepSilentUnchanged(ws.value[p], sec.step);
        assert ws.value[p := ws.value[p]] == ws.value;
      }
      assert WidgetStep(ws, sec) == ws;
      WidgetsSilentUnchanged(ws, secs[1..]);
    }
  }

  // ---------------------------------------------------------------------------
  // Default chat commands
  // ---------------------------------------------------------------------------

  const TextKey := "text"
  const HotkeyKey := "hotkey"
  const SendKey := "send"
  const AddedPrefix := "  • Command added: "

  /** A default command: its chat text and optional hotkey; every default has `send: true`. */
  datatype Command = Command(text: string, hotkey: Option<string>)

  /** The object pushed onto `config.commands`. */
  function CommandObj(c: Command): (o: Obj)
    ensures Get(o, TextKey) == Some(JStr(c.text))
  {
    map[HotkeyKey := (if c.hotkey.Some? then JStr(c.hotkey.value) else JNull),
        SendKey := JBool(true),
        TextKey := JStr(c.text)]
  }

  /** `cmds.some(c => c.text === text)`. */
  predicate HasText(cmds: seq<Obj>, text: string) {
    exists i | 0 <= i < |cmds| :: Get(cmds[i], TextKey) == Some(JStr(text))
  }

  /** The commands after trying each default in order. */
  function AddCommands(cmds: seq<Obj>, ds: seq<Command>): seq<Obj>
    decreases |ds|
  {
    if ds == [] then cmds
    else AddCommands(if HasText(cmds, ds[0].text) then cmds else cmds + [CommandObj(ds[0])], ds[1..])
  }

  function CommandChanges(cmds: seq<Obj>, ds: seq<Command>): seq<string>
    decreases |ds|
  {
    if ds == [] then []
    else if HasText(cmds, ds[0].text) then CommandChanges(cmds, ds[1..])
    else [AddedPrefix + ds[0].text] + CommandChanges(cmds + [CommandObj(ds[0])], ds[1..])
  }

  /** A command list `a` that begins `b` keeps every text of `a`. */
  lemma HasTextPrefix(a: seq<Obj>, b: seq<Obj>, t: string)
    requires |a| <= |b| && b[..|a|] == a
    ensures HasText(a, t) ==> HasText(b, t)
  {
    if HasText(a, t) {
      var k :| 0 <= k < |a| && Get(a[k], TextKey) == Some(JStr(t));
      assert b[k] == a[k];
    }
  }

  /**
   * Existing commands are neither removed nor reordered, and one change line is
   * recorded per appended command.
   */
  lemma {:induction false} AddCommandsPrefix(cmds: seq<Obj>, ds: seq<Command>)
    ensures |AddCommands(cmds, ds)| >= |cmds| && AddCommands(cmds, ds)[..|cmds|] == cmds
    ensures |CommandChanges(cmds, ds)| == |AddCommands(cmds, ds)| - |cmds|
    decreases |ds|
  {
    if ds != [] {
      var next := if HasText(cmds, ds[0].text) then cmds else cmds + [CommandObj(ds[0])];
      AddCommandsPrefix(next, ds[1..]);
      var r := AddCommands(next, ds[1..]);
      assert next[..|cmds|] == cmds;
      assert r[..|cmds|] == r[..|next|][..|cmds|];
    }
  }

  /** Afterwards every default's text is present. */
  lemma {:induction false} AddCommandsPresent(cmds: seq<Obj>, ds: seq<Command>)
    ensures forall i | 0 <= i < |ds| :: HasText(AddCommands(cmds, ds), ds[i].text)
    decreases |ds|
  {
    if ds != [] {
      var d, rest := ds[0], ds[1..];
      var next := if HasText(cmds, d.text) then cmds else cmds + [CommandObj(d)];
      AddCommandsPresent(next, rest);
      AddCommandsPrefix(next, rest);
      var r := AddCommands(next, rest);
      assert HasText(next, d.text) by {
        if !HasText(cmds, d.text) {
          assert Get(next[|cmds|], TextKey) == Some(JStr(d.text));
        }
      }
      HasTextPrefix(next, r, d.text);
      forall i | 0 <= i < |ds| ensures HasText(r, ds[i].text) {
        if i > 0 {
          assert ds[i] == rest[i - 1];
        }
      }
    }
  }

  /** Each appended command is a default whose text was absent beforehand. */
  lemma {:induction false} AddCommandsNew(cmds: seq<Obj>, ds: seq<Command>)
    ensures forall j | |cmds| <= j < |AddCommands(cmds, ds)| :: exists i | 0 <= i < |ds| ::
      AddCommands(cmds, ds)[j] == CommandObj(ds[i]) && !HasText(cmds, ds[i].text)
    decreases |ds|
  {
    if ds != [] {
      var d, rest := ds[0], ds[1..];
      var next := if HasText(cmds, d.text) then cmds else cmds + [CommandObj(d)];
      AddCommandsNew(next, rest);
      AddCommandsPrefix(next, rest);
      var r := AddCommands(next, rest);
      assert next[..|cmds|] == cmds;
      assert r == AddCommands(cmds, ds);
      forall j | |cmds| <= j < |r|
        ensures exists i | 0 <= i < |ds| :: r[j] == CommandObj(ds[i]) && !HasText(cmds, ds[i].text)
      {
        if j < |next| {
          assert r[j] == r[..|next|][j] == next[j];
          assert r[j] == CommandObj(ds[0]) && !HasText(cmds, ds[0].text);
        } else {
          var i :| 0 <= i < |rest| && r[j] == CommandObj(rest[i]) && !HasText(next, rest[i].text);
          assert ds[i + 1] == rest[i];
          HasTextPrefix(cmds, next, rest[i].text);
          assert r[j] == CommandObj(ds[i + 1]) && !HasText(cmds, ds[i + 1].text);
        }
      }
    } else {
      assert AddCommands(cmds, ds) == cmds;
    }
  }

  /** The `forEach` over the default commands, on an existing `commands` array. */
  method AddCommandsTo(cmds: seq<Obj>, ds: seq<Command>) returns (r: seq<Obj>, lines: seq<string>)
    ensures r == AddCommands(cmds, ds) && lines == CommandChanges(cmds, ds)
  {
    r, lines := cmds, [];
    var i := 0;
    while i < |ds|
      invariant 0 <= i <= |ds|
      invariant AddCommands(r, ds[i..]) == AddCommands(cmds, ds)
      invariant lines + CommandChanges(r, ds[i..]) == CommandChanges(cmds, ds)
    {
      var cmd := ds[i];
      assert ds[i..][1..] == ds[i + 1..];
      var present := HasText(r, cmd.text);
      if !present {
        r := r + [CommandObj(cmd)];
        lines := lines + [AddedPrefix + cmd.text];
      }
      i := i + 1;
    }
  }

  /** When every default's text is present, nothing is appended or recorded. */
  lemma {:induction false} AddCommandsNoop(cmds: seq<Obj>, ds: seq<Command>)
    requires forall i | 0 <= i < |ds| :: HasText(cmds, ds[i].text)
    ensures AddCommands(cmds, ds) == cmds && CommandChanges(cmds, ds) == []
    decreases |ds|
  {
    if ds != [] {
      assert HasText(cmds, ds[0].text);
      assert forall i | 0 <= i < |ds[1..]| :: ds[1..][i] == ds[i + 1];
      AddCommandsNoop(cmds, ds[1..]);
    }
  }

  // ---------------------------------------------------------------------------
  // The script's tables
  // ---------------------------------------------------------------------------

  const PriceCheckType := "price-check"
  const ItemCheckType := "item-check"
  const ItemSearchType := "item-search"
  const StashSearchType := "stash-search"

  const PriceCheckPrefix := "  • Price Check: "
  const ItemCheckPrefix := "  • Item Check: "
  const GlobalPrefix := "  • Global: "
  const OcrGemsKey := "ocrGemsKey"
  const OcrGemsHotkey := "Alt + G"
  const OcrLine := "  • Item Search: OCR gems hotkey = Alt + G"
  const StashHotkey := "Alt + F"
  const StashLine := "  • Stash Search: hotkey = Alt + F"

  const PriceCheckEntries: seq<Entry> := [
    Entry("requestPricePrediction", JBool(true)),
    Entry("usePseudo", JBool(true)),
    Entry("showRateLimitState", JBool(true)),
    Entry("autoFillEmptyRuneSockets", JBool(true)),
    Entry("alwaysShowTier", JBool(true)),
    Entry("smartInitialSearch", JBool(true)),
    Entry("activateStockFilter", JBool(true)),
    Entry("searchStatRange", JNum(20.0)),
    Entry("chaosPriceThreshold", JNum(1.0)),
    Entry("showSeller", JBool(true)),
    Entry("apiLatencySeconds", JNum(1.0))]

  const ItemCheckEntries: seq<Entry> := [
    Entry("wikiKey", JStr("Alt + W")),
    Entry("poedbKey", JStr("Alt + B"))]

  const GlobalEntries: seq<Entry> := [
    Entry("restoreClipboard", JBool(true)),
    Entry("stashScroll", JBool(true)),
    Entry("fontSize", JNum(16.0)),
    Entry("overlayBackgroundClose", JBool(true)),
    Entry("showAttachNotification", JBool(false))]

  const DefaultCommands: seq<Command> := [
    Command("/hideout", Some("F5")),
    Command("/exit", Some("F9")),
    Command("@last ty", None),
    Command("/invite @last", None),
    Command("/dnd", Some("F6"))]

  const PriceCheckSection := Section(PriceCheckType, Enhance(PriceCheckPrefix, PriceCheckEntries))
  const ItemCheckSection := Section(ItemCheckType, Enhance(ItemCheckPrefix, ItemCheckEntries))
  const ItemSearchSection := Section(ItemSearchType, FillIfUnset(OcrGemsKey, JStr(OcrGemsHotkey), OcrLine))
  const StashSearchSection := Section(StashSearchType, FillIfUnset(HotkeyKey, JStr(StashHotkey), StashLine))

  const Sections: seq<Section> := [PriceCheckSection, ItemCheckSection, ItemSearchSection, StashSearchSection]

  lemma PriceCheckKeys()
    ensures DistinctKeys(PriceCheckEntries) && !Listed(PriceCheckEntries, WmType)
  {
  }

  lemma ItemCheckKeys()
    ensures DistinctKeys(ItemCheckEntries) && !Listed(ItemCheckEntries, WmType)
  {
  }

  lemma GlobalKeys()
    ensures DistinctKeys(GlobalEntries)
  {
  }

  lemma ScriptSectionsOk()
    ensures SectionsOk(Sections)
  {
    PriceCheckKeys();
    ItemCheckKeys();
    assert OcrGemsKey[0] != WmType[0] && HotkeyKey[0] != WmType[0];
    assert ItemCheckType[5] != ItemSearchType[5];
  }

  // ---------------------------------------------------------------------------
  // The whole merge
  // ---------------------------------------------------------------------------

  /** The configuration: top-level settings, `widgets` and `commands` (`None` when absent). */
  datatype Config = Config(settings: Obj, widgets: Option<seq<Obj>>, commands: Option<seq<Obj>>)

  /** `config.commands` after the default-command block (nothing is added without an array). */
  function CommandsAfter(cmds: Option<seq<Obj>>): Option<seq<Obj>> {
    if cmds.None? then None else Some(AddCommands(cmds.value, DefaultCommands))
  }

  function CommandsAfterChanges(cmds: Option<seq<Obj>>): seq<string> {
    if cmds.None? then [] else CommandChanges(cmds.value, DefaultCommands)
  }

  function Merged(c: Config): Config {
    Config(Apply(c.settings, GlobalEntries), Widgets(c.widgets, Sections), CommandsAfter(c.commands))
  }

  /** The change lines in script order: widget blocks, global settings, commands. */
  function MergeChanges(c: Config): seq<string> {
    WidgetsChanges(c.widgets, Sections) + Changes(GlobalPrefix, c.settings, GlobalEntries)
      + CommandsAfterChanges(c.commands)
  }

  /** The widget blocks: a second run changes and records nothing. */
  lemma ScriptWidgetsIdempotent(ws: Option<seq<Obj>>)
    ensures Widgets(Widgets(ws, Sections), Sections) == Widgets(ws, Sections)
    ensures WidgetsChanges(Widgets(ws, Sections), Sections) == []
  {
    ScriptSectionsOk();
    WidgetsIdempotent(ws, Sections);
  }

  /** The widget blocks record a change exactly when they change the widgets. */
  lemma ScriptWidgetsSilentIff(ws: Option<seq<Obj>>)
    ensures WidgetsChanges(ws, Sections) == [] <==> Widgets(ws, Sections) == ws
  {
    if WidgetsChanges(ws, Sections) == [] {
      WidgetsSilentUnchanged(ws, Sections);
    }
    if Widgets(ws, Sections) == ws {
      ScriptSectionsOk();
      WidgetsAtRest(ws, Sections);
      WidgetsNoop(ws, Sections);
    }
  }

  /** The global-settings block: a second run changes and records nothing. */
  lemma GlobalIdempotent(o: Obj)
    ensures Apply(Apply(o, GlobalEntries), GlobalEntries) == Apply(o, GlobalEntries)
    ensures Changes(GlobalPrefix, Apply(o, GlobalEntries), GlobalEntries) == []
  {
    GlobalKeys();
    ApplyIdempotent(GlobalPrefix, o, GlobalEntries);
  }

  /** The global-settings block records a change exactly when it changes the settings. */
  lemma GlobalSilentIff(o: Obj)
    ensures Changes(GlobalPrefix, o, GlobalEntries) == [] <==> Apply(o, GlobalEntries) == o
  {
    if Changes(GlobalPrefix, o, GlobalEntries) == [] {
      UnchangedWhenSilent(GlobalPrefix, o, GlobalEntries);
    }
    if Apply(o, GlobalEntries) == o {
      GlobalIdempotent(o);
    }
  }

  /** The default-command block: a second run appends and records nothing. */
  lemma CommandsIdempotent(cmds: Option<seq<Obj>>)
    ensures CommandsAfter(CommandsAfter(cmds)) == CommandsAfter(cmds)
    ensures CommandsAfterChanges(CommandsAfter(cmds)) == []
  {
    if cmds.Some? {
      AddCommandsPresent(cmds.value, DefaultCommands);
      AddCommandsNoop(AddCommands(cmds.value, DefaultCommands), DefaultCommands);
    }
  }

  /** The default-command block records a change exactly when it appends a command. */
  lemma CommandsSilentIff(cmds: Option<seq<Obj>>)
    ensures CommandsAfterChanges(cmds) == [] <==> CommandsAfter(cmds) == cmds
  {
    if cmds.Some? {
      AddCommandsPrefix(cmds.value, DefaultCommands);
      var r := AddCommands(cmds.value, DefaultCommands);
      if |r| == |cmds.value| {
        assert r == r[..|cmds.value|];
      }
    }
  }

  /** Running the script on its own output changes nothing and records no change. */
  lemma MergeIdempotent(c: Config)
    ensures Merged(Merged(c)) == Merged(c)
    ensures MergeChanges(Merged(c)) == []
  {
    ScriptWidgetsIdempotent(c.widgets);
    GlobalIdempotent(c.settings);
    CommandsIdempotent(c.commands);
  }

  /** The file is written (some change line is recorded) exactly when the merge changes the configuration. */
  lemma WrittenIffChanged(c: Config)
    ensures MergeChanges(c) != [] <==> Merged(c) != c
  {
    ScriptWidgetsSilentIff(c.widgets);
    GlobalSilentIff(c.settings);
    CommandsSilentIff(c.commands);
  }

  // ---------------------------------------------------------------------------
  // The script as a sequence of in-place updates
  // ---------------------------------------------------------------------------

  class ConfigEnhancer {
    var settings: Obj
    var widgets: Option<seq<Obj>>
    var commands: Option<seq<Obj>>
    /** The `changes` array. */
    var changes: seq<string>

    function State(): Config
      reads this
    {
      Config(settings, widgets, commands)
    }

    /** The loaded configuration, with no change recorded yet. */
    constructor(c: Config)
      ensures State() == c && changes == []
    {
      settings, widgets, commands := c.settings, c.widgets, c.commands;
      changes := [];
    }

    /** One widget block: find the widget of the section's type and update it in place. */
    method EnhanceWidget(sec: Section)
      modifies this
      ensures widgets == WidgetStep(old(widgets), sec)
      ensures changes == old(changes) + WidgetStepChanges(old(widgets), sec)
      ensures settings == old(settings) && commands == old(commands)
    {
      if widgets.Some? {
        var found := FindWidget(widgets.value, sec.wmType);
        if found.Some? {
          var p := found.value;
          var w := widgets.value[p];
          var lines: seq<string>;
          match sec.step {
            case Enhance(prefix, es) =>
              w, lines := ApplyEntries(w, prefix, es);
            case FillIfUnset(key, value, line) =>
              if !TruthyAt(w, key) {
                w := w[key := value];
                lines := [line];
              } else {
                lines := [];
              }
          }
          widgets := Some(widgets.value[p := w]);
          changes := changes + lines;
        }
      }
    }

    /** The global-settings block. */
    method EnhanceGlobal()
      modifies this
      ensures settings == Apply(old(settings), GlobalEntries)
      ensures changes == old(changes) + Changes(GlobalPrefix, old(settings), GlobalEntries)
      ensures widgets == old(widgets) && commands == old(commands)
    {
      var lines;
      settings, lines := ApplyEntries(settings, GlobalPrefix, GlobalEntries);
      changes := changes + lines;
    }

    /**
     * The default-command block: append each default whose text is not yet
     * present. Without a `commands` array every iteration skips, so the array
     * test is made once.
     */
    method AddDefaultCommands()
      modifies this
      ensures commands == CommandsAfter(old(commands))
      ensures changes == old(changes) + CommandsAfterChanges(old(commands))
      ensures settings == old(settings) && widgets == old(widgets)
    {
      if commands.Some? {
        var r, lines := AddCommandsTo(commands.value, DefaultCommands);
        commands := Some(r);
        changes := changes + lines;
      }
    }

    /**
     * The whole script: the four widget blocks, the global settings and the
     * default commands, in order; the file is written iff a change was recorded.
     */
    method Run() returns (written: bool)
      requires changes == []
      modifies this
      ensures State() == Merged(old(State()))
      ensures changes == MergeChanges(old(State()))
      ensures written <==> changes != []
    {
      ghost var c0 := State();
      EnhanceWidget(PriceCheckSection);
      assert changes == WidgetStepChanges(c0.widgets, PriceCheckSection);
      EnhanceWidget(ItemCheckSection);
      EnhanceWidget(ItemSearchSection);
      EnhanceWidget(StashSearchSection);
      WidgetsOfFour(c0.widgets, PriceCheckSection, ItemCheckSection, ItemSearchSection, StashSearchSection);
      EnhanceGlobal();
      AddDefaultCommands();
      written := |changes| > 0;
    }
  }

  /** The widget blocks of a four-section list, one after the other. */
  lemma WidgetsOfFour(ws: Option<seq<Obj>>, a: Section, b: Section, c: Section, d: Section)
    ensures var w1 := WidgetStep(ws, a);
      var w2 := WidgetStep(w1, b);
      var w3 := WidgetStep(w2, c);
      Widgets(ws, [a, b, c, d]) == WidgetStep(w3, d)
      && WidgetsChanges(ws, [a, b, c, d]) == WidgetStepChanges(ws, a)
        + WidgetStepChanges(w1, b) + WidgetStepChanges(w2, c) + WidgetStepChanges(w3, d)
  {
    var w1 := WidgetStep(ws, a);
    var w2 := WidgetStep(w1, b);
    var w3 := WidgetStep(w2, c);
    assert [a, b, c, d][1..] == [b, c, d];
    assert [b, c, d][1..] == [c, d];
    assert [c, d][1..] == [d];
    assert [d][1..] == [];
    assert Widgets(w3, [d]) == WidgetStep(w3, d);
    assert Widgets(w2, [c, d]) == Widgets(w3, [d]);
    assert Widgets(w1, [b, c, d]) == Widgets(w2, [c, d]);
    assert WidgetsChanges(w3, [d]) == WidgetStepChanges(w3, d);
    assert WidgetsChanges(w2, [c, d]) == WidgetStepChanges(w2, c) + WidgetsChanges(w3, [d]);
    assert WidgetsChanges(w1, [b, c, d]) == WidgetStepChanges(w1, b) + WidgetsChanges(w2, [c, d]);
  }
}
