/**
 * The ToS-safe item-data helper (safe-data-parser.js): reading an item copied
 * from the clipboard, validating an item record, the sliding-window limiter in
 * front of external calls, and the text block appended to the data file.
 *
 * The clock is a parameter, the limiter's sleep is returned as a duration, and
 * the data file is the text appended to it during the parser's lifetime.
 */
module SafeData {
  import opened JsValues
  import opened JsStrings

  /** At most this many calls are let through without waiting in one window. */
  const MaxRequests := 5

  /** The limiter's window, in milliseconds. */
  const TimeWindow := 10000

  /** What `parseClipboardItem` returns for text of two lines or more. */
  datatype ClipboardItem = ClipboardItem(name: string, itemType: string, stats: seq<string>, source: string, timestamp: string)

  /** An item record as `validateItemFormat` and `saveItem` read it; absent properties are `None`. */
  datatype ItemRecord = ItemRecord(name: Option<string>, itemType: Option<string>, stats: seq<string>, source: Option<string>)

  /** What `validateItemFormat` returns. */
  datatype Validation = Validation(valid: bool, errors: seq<string>)

  /** What `safeAPICall` resolves to. */
  datatype ApiResult = ApiResult(success: bool, message: string)

  /**
   * `parseClipboardItem`: the trimmed text split on line feeds; fewer than two
   * lines give `null`, otherwise the first line is the name, the second the
   * type and the rest the stats.
   */
  function ParseClipboardItem(clipboardText: string, timestamp: string): (r: Option<ClipboardItem>)
    ensures r.None? <==> |Split(Trim(clipboardText), '\n')| < 2
    ensures r.Some? ==>
      var lines := Split(Trim(clipboardText), '\n');
      && r.value.name == lines[0]
      && r.value.itemType == lines[1]
      && r.value.stats == lines[2..]
      && |r.value.stats| == |lines| - 2
      && r.value.source == "clipboard"
      && r.value.timestamp == timestamp
  {
    var lines := Split(Trim(clipboardText), '\n');
    if |lines| < 2 then None
    else Some(ClipboardItem(lines[0], lines[1], lines[2..], "clipboard", timestamp))
  }

  /** The clipboard text is refused exactly when its trim holds no line feed. */
  lemma ParseClipboardNoneIff(clipboardText: string, timestamp: string)
    ensures ParseClipboardItem(clipboardText, timestamp).None? <==> '\n' !in Trim(clipboardText)
  {
    SplitSingleIff(Trim(clipboardText), '\n');
  }

  /** The four checks of `validateItemFormat`, in the order it runs them. */
  datatype Check = NameCheck | TypeCheck | LengthCheck | SourceCheck

  /** The position of a check in the run order. */
  function Rank(c: Check): int {
    match c
    case NameCheck => 0
    case TypeCheck => 1
    case LengthCheck => 2
    case SourceCheck => 3
  }

  const Checks: seq<Check> := [NameCheck, TypeCheck, LengthCheck, SourceCheck]

  const NameRequired := "Item name is required"
  const TypeRequired := "Item type is required"
  const NameTooLong := "Item name seems too long (possible error)"
  const AutomatedSource := "⚠️  Automated sources not allowed per ToS"

  /** The message a failing check pushes. */
  function Message(c: Check): string {
    match c
    case NameCheck => NameRequired
    case TypeCheck => TypeRequired
    case LengthCheck => NameTooLong
    case SourceCheck => AutomatedSource
  }

  /** Different checks push different messages. */
  lemma MessageInjective(c: Check, d: Check)
    requires Message(c) == Message(d)
    ensures c == d
  {
    var m, n := Message(c), Message(d);
    assert m[0] == n[0] && m[5] == n[5] && m[10] == n[10];
  }

  /** The word that marks a source as automated. */
  const Automated := "automated"

  /** A missing, empty or all-white-space string field. */
  predicate Blank(s: Option<string>) {
    !TruthyStr(s) || Trim(s.value) == ""
  }

  /** Which of the four checks report an error. */
  datatype Flags = Flags(blankName: bool, blankType: bool, longName: bool, automated: bool)

  /** The outcome of the four checks of `validateItemFormat` on an item. */
  function FlagsOf(item: ItemRecord): Flags {
    Flags(
      Blank(item.name),
      Blank(item.itemType),
      TruthyStr(item.name) && |item.name.value| > 100,
      TruthyStr(item.source) && Contains(item.source.value, Automated))
  }

  predicate Raised(f: Flags, c: Check) {
    match c
    case NameCheck => f.blankName
    case TypeCheck => f.blankType
    case LengthCheck => f.longName
    case SourceCheck => f.automated
  }

  /** Whether a check reports an error for the item. */
  predicate Fails(item: ItemRecord, c: Check) {
    Raised(FlagsOf(item), c)
  }

  /** A check, when it is raised. */
  function Piece(f: Flags, c: Check): seq<Check> {
    if Raised(f, c) then [c] else []
  }

  /** The raised checks among `checks`, in order. */
  function Failing(f: Flags, checks: seq<Check>): seq<Check>
    decreases |checks|
  {
    if checks == [] then [] else Piece(f, checks[0]) + Failing(f, checks[1..])
  }

  /** The messages of a sequence of checks. */
  function MessagesOf(checks: seq<Check>): seq<string>
    decreases |checks|
  {
    if checks == [] then [] else [Message(checks[0])] + MessagesOf(checks[1..])
  }

  /** The messages of the raised checks, in run order. */
  function ErrorsFor(f: Flags): seq<string> {
    MessagesOf(Failing(f, Checks))
  }

  /** The error list `validateItemFormat` builds. */
  function ValidationErrors(item: ItemRecord): seq<string> {
    ErrorsFor(FlagsOf(item))
  }

  lemma {:induction false} MessagesOfShape(checks: seq<Check>)
    ensures |MessagesOf(checks)| == |checks|
    ensures forall i | 0 <= i < |checks| :: MessagesOf(checks)[i] == Message(checks[i])
    decreases |checks|
  {
    MessagesOfLength(checks);
    forall i | 0 <= i < |checks|
      ensures MessagesOf(checks)[i] == Message(checks[i])
    {
      MessagesOfAt(checks, i);
    }
  }

  lemma {:induction false} MessagesOfLength(checks: seq<Check>)
    ensures |MessagesOf(checks)| == |checks|
    decreases |checks|
  {
    if checks != [] {
      MessagesOfLength(checks[1..]);
    }
  }

  lemma {:induction false} MessagesOfAt(checks: seq<Check>, i: nat)
    requires i < |checks|
    ensures i < |MessagesOf(checks)| && MessagesOf(checks)[i] == Message(checks[i])
    decreases |checks|
  {
    MessagesOfLength(checks);
    if i > 0 {
      MessagesOfAt(checks[1..], i - 1);
    }
  }

  /** The raised checks of a list are those of its members that are raised; there are no more of them than members. */
  lemma {:induction false} FailingMembers(f: Flags, checks: seq<Check>)
    ensures forall c :: c in Failing(f, checks) <==> c in checks && Raised(f, c)
    ensures |Failing(f, checks)| <= |checks|
    decreases |checks|
  {
    if checks != [] {
      FailingMembers(f, checks[1..]);
      assert checks == [checks[0]] + checks[1..];
    }
  }

  /** The raised checks of a rank-ordered list are still in rank order. */
  lemma {:induction false} FailingSorted(f: Flags, checks: seq<Check>)
    requires forall i, j | 0 <= i < j < |checks| :: Rank(checks[i]) < Rank(checks[j])
    ensures forall i, j | 0 <= i < j < |Failing(f, checks)| ::
      Rank(Failing(f, checks)[i]) < Rank(Failing(f, checks)[j])
    decreases |checks|
  {
    if checks != [] {
      var tail := checks[1..];
      assert forall i, j | 0 <= i < j < |tail| :: Rank(tail[i]) < Rank(tail[j]) by {
        forall i, j | 0 <= i < j < |tail| ensures Rank(tail[i]) < Rank(tail[j]) {
          assert tail[i] == checks[i + 1] && tail[j] == checks[j + 1];
        }
      }
      FailingSorted(f, tail);
      FailingMembers(f, tail);
      var rest := Failing(f, tail);
      forall i | 0 <= i < |rest|
        ensures Rank(checks[0]) < Rank(rest[i])
      {
        assert rest[i] in tail;
        var k :| 0 <= k < |tail| && tail[k] == rest[i];
        assert checks[k + 1] == rest[i];
      }
      var p := Piece(f, checks[0]);
      var r := Failing(f, checks);
      assert r == p + rest;
      forall i, j | 0 <= i < j < |r|
        ensures Rank(r[i]) < Rank(r[j])
      {
        assert r[j] == rest[j - |p|];
        if i >= |p| {
          assert r[i] == rest[i - |p|];
        }
      }
    }
  }

  /** The raised checks of a rank-ordered list are those of its members that are raised, still in rank order. */
  lemma FailingShape(f: Flags, checks: seq<Check>)
    requires forall i, j | 0 <= i < j < |checks| :: Rank(checks[i]) < Rank(checks[j])
    ensures forall c :: c in Failing(f, checks) <==> c in checks && Raised(f, c)
    ensures forall i, j | 0 <= i < j < |Failing(f, checks)| ::
      Rank(Failing(f, checks)[i]) < Rank(Failing(f, checks)[j])
    ensures forall i | 0 <= i < |Failing(f, checks)| :: Failing(f, checks)[i] in checks
    ensures |Failing(f, checks)| <= |checks|
  {
    FailingMembers(f, checks);
    FailingSorted(f, checks);
  }

  /** The messages of a concatenation are the concatenated messages. */
  lemma {:induction false} MessagesOfAppend(a: seq<Check>, b: seq<Check>)
    ensures MessagesOf(a + b) == MessagesOf(a) + MessagesOf(b)
    decreases |a|
  {
    if a == [] {
      assert a + b == b;
    } else {
      assert (a + b)[1..] == a[1..] + b;
      MessagesOfAppend(a[1..], b);
    }
  }

  /** The raised checks in run order, one piece per check. */
  lemma FailingChecks(f: Flags)
    ensures Failing(f, Checks) ==
      Piece(f, NameCheck) + (Piece(f, TypeCheck) + (Piece(f, LengthCheck) + Piece(f, SourceCheck)))
  {
    assert Checks[1..][1..][1..][1..] == [];
    assert Failing(f, Checks[1..][1..][1..]) == Piece(f, SourceCheck);
    assert Failing(f, Checks[1..][1..]) == Piece(f, LengthCheck) + Piece(f, SourceCheck);
  }

  /** The error list is the four checks' messages, each present when its check is raised. */
  lemma ErrorsByCheck(f: Flags)
    ensures ErrorsFor(f) ==
      (if f.blankName then [NameRequired] else []) +
      (if f.blankType then [TypeRequired] else []) +
      (if f.longName then [NameTooLong] else []) +
      (if f.automated then [AutomatedSource] else [])
  {
    var p0, p1, p2, p3 := Piece(f, NameCheck), Piece(f, TypeCheck), Piece(f, LengthCheck), Piece(f, SourceCheck);
    FailingChecks(f);
    MessagesOfAppend(p2, p3);
    MessagesOfAppend(p1, p2 + p3);
    MessagesOfAppend(p0, p1 + (p2 + p3));
    var m0, m1, m2, m3 := MessagesOf(p0), MessagesOf(p1), MessagesOf(p2), MessagesOf(p3);
    assert ErrorsFor(f) == m0 + (m1 + (m2 + m3));
    MessagesOfPiece(f, NameCheck);
    MessagesOfPiece(f, TypeCheck);
    MessagesOfPiece(f, LengthCheck);
    MessagesOfPiece(f, SourceCheck);
    AppendAssoc(m0, m1, m2, m3);
  }

  /** Regrouping a four-part concatenation. */
  lemma AppendAssoc<T>(a: seq<T>, b: seq<T>, c: seq<T>, d: seq<T>)
    ensures a + (b + (c + d)) == a + b + c + d
  {
    assert a + (b + (c + d)) == (a + b) + (c + d);
  }

  /** The messages of a piece: the check's message when it is raised. */
  lemma MessagesOfPiece(f: Flags, c: Check)
    ensures MessagesOf(Piece(f, c)) == if Raised(f, c) then [Message(c)] else []
  {
    if Raised(f, c) {
      assert Piece(f, c) == [c];
      assert [c][1..] == [];
    }
  }

  /** The error list names the raised checks' messages in the order the checks run, and has at most four entries. */
  lemma ErrorsOrder(f: Flags)
    ensures var failing := Failing(f, Checks);
      && |ErrorsFor(f)| == |failing| <= 4
      && (forall i | 0 <= i < |failing| :: ErrorsFor(f)[i] == Message(failing[i]))
      && (forall i, j | 0 <= i < j < |failing| :: Rank(failing[i]) < Rank(failing[j]))
      && (forall c :: c in failing <==> Raised(f, c))
  {
    var failing := Failing(f, Checks);
    FailingShape(f, Checks);
    MessagesOfShape(failing);
    ChecksListed();
  }

  /** Every check is in the run list. */
  lemma ChecksListed()
    ensures forall c :: c in Checks
    ensures forall i, j | 0 <= i < j < |Checks| :: Rank(Checks[i]) < Rank(Checks[j])
  {
    forall c ensures c in Checks {
      assert c == Checks[Rank(c)];
    }
  }

  /** A check's message is in the error list exactly when the check is raised. */
  lemma ErrorsMembers(f: Flags)
    ensures forall c :: Message(c) in ErrorsFor(f) <==> Raised(f, c)
  {
    var failing := Failing(f, Checks);
    ErrorsOrder(f);
    var e := ErrorsFor(f);
    forall c
      ensures Message(c) in e <==> Raised(f, c)
    {
      if Message(c) in e {
        var i :| 0 <= i < |e| && e[i] == Message(c);
        MessageInjective(failing[i], c);
      }
      if Raised(f, c) {
        var i :| 0 <= i < |failing| && failing[i] == c;
        assert e[i] == Message(c);
      }
    }
  }

  /**
   * An item is valid exactly when no check fails: its name and type are
   * present and not blank, the name has at most 100 characters and the source
   * does not mention "automated".
   */
  lemma ValidIff(item: ItemRecord)
    ensures ValidationErrors(item) == [] <==>
      && !Blank(item.name) && !Blank(item.itemType)
      && |item.name.value| <= 100
      && !(TruthyStr(item.source) && Contains(item.source.value, Automated))
  {
    ErrorsByCheck(FlagsOf(item));
  }

  /** A clipboard item is never rejected as automated. */
  lemma ClipboardSourceAllowed()
    ensures !Contains("clipboard", "automated")
  {
    var c := "clipboard";
    assert forall i | 0 <= i < |c| :: c[i] != 'u';
    MissingCharNotContains(c, "automated", 1);
  }

  /** `requests.filter(t => now - t < timeWindow)`: the timestamps still inside the window, in order. */
  function Retained(requests: seq<int>, now: int): (r: seq<int>)
    ensures |r| <= |requests|
    ensures forall i | 0 <= i < |r| :: now - r[i] < TimeWindow
    decreases |requests|
  {
    if requests == [] then []
    else (if now - requests[0] < TimeWindow then [requests[0]] else []) + Retained(requests[1..], now)
  }

  /** A timestamp is retained exactly when it was recorded and is still inside the window; none is added. */
  lemma {:induction false} RetainedMembers(requests: seq<int>, now: int)
    ensures |Retained(requests, now)| <= |requests|
    ensures forall t :: t in Retained(requests, now) <==> t in requests && now - t < TimeWindow
    decreases |requests|
  {
    if requests != [] {
      RetainedMembers(requests[1..], now);
      assert requests == [requests[0]] + requests[1..];
    }
  }

  predicate Sorted(s: seq<int>) {
    forall i, j | 0 <= i < j < |s| :: s[i] <= s[j]
  }

  /** Every timestamp at or after a retained one is retained too. */
  lemma {:induction false} RetainedAll(requests: seq<int>, now: int)
    requires Sorted(requests) && requests != [] && now - requests[0] < TimeWindow
    ensures Retained(requests, now) == requests
    decreases |requests|
  {
    if |requests| > 1 {
      RetainedAll(requests[1..], now);
      assert requests == [requests[0]] + requests[1..];
    }
  }

  /** On timestamps recorded in order, the filter keeps a suffix: it drops the oldest ones and keeps the order. */
  lemma {:induction false} RetainedSuffix(requests: seq<int>, now: int)
    requires Sorted(requests)
    ensures |Retained(requests, now)| <= |requests|
    ensures Retained(requests, now) == requests[|requests| - |Retained(requests, now)|..]
    decreases |requests|
  {
    if requests != [] {
      if now - requests[0] < TimeWindow {
        RetainedAll(requests, now);
      } else {
        RetainedSuffix(requests[1..], now);
        assert Retained(requests, now) == Retained(requests[1..], now);
      }
    }
  }

  /** The wait before a call: only when the window is full, until its oldest call leaves it. */
  function WaitTime(retained: seq<int>, now: int): (w: Option<int>)
    requires forall i | 0 <= i < |retained| :: now - retained[i] < TimeWindow
    ensures w.Some? <==> |retained| >= MaxRequests
    ensures w.Some? ==> w.value > 0 && now + w.value == retained[0] + TimeWindow
  {
    if |retained| >= MaxRequests then
      Some(TimeWindow - (now - retained[0]))
    else None
  }

  /** A line per element, each followed by a line feed. */
  function Terminated(lines: seq<string>): string
    decreases |lines|
  {
    if lines == [] then "" else lines[0] + "\n" + Terminated(lines[1..])
  }

  lemma {:induction false} TerminatedSnoc(lines: seq<string>, line: string)
    ensures Terminated(lines + [line]) == Terminated(lines) + line + "\n"
    decreases |lines|
  {
    if lines == [] {
      assert [] + [line] == [line];
    } else {
      TerminatedSnoc(lines[1..], line);
      assert (lines + [line])[1..] == lines[1..] + [line];
    }
  }

  /** Terminated lines are the lines joined with line feeds, plus a final line feed. */
  lemma {:induction false} TerminatedJoin(lines: seq<string>)
    requires lines != []
    ensures Terminated(lines) == Join(lines, "\n") + "\n"
    decreases |lines|
  {
    if |lines| > 1 {
      TerminatedJoin(lines[1..]);
    } else {
      assert lines[1..] == [];
    }
  }

  /** The block `saveItem` appends: a blank line, the name, the type and each stat, every one ending in a line feed. */
  function SavedText(name: string, itemType: string, stats: seq<string>): string {
    "\n" + Terminated([name, itemType] + stats)
  }

  /**
   * What `saveItem` writes, `parseClipboardItem` reads back: for fields without
   * line feeds, a name that does not start with white space and a last line (the
   * last stat, or the type) that does not end with it, the parsed name, type and
   * stats are the saved ones.
   */
  lemma SavedTextRoundTrip(name: string, itemType: string, stats: seq<string>, timestamp: string)
    requires '\n' !in name && '\n' !in itemType && forall k | 0 <= k < |stats| :: '\n' !in stats[k]
    requires name != [] && !IsSpace(name[0])
    requires var last := if stats == [] then itemType else stats[|stats| - 1];
      last != [] && !IsSpace(last[|last| - 1])
    ensures var r := ParseClipboardItem(SavedText(name, itemType, stats), timestamp);
      r.Some? && r.value.name == name && r.value.itemType == itemType && r.value.stats == stats
  {
    var lines := [name, itemType] + stats;
    var n := |lines|;
    var j := Join(lines, "\n");
    TerminatedJoin(lines);
    assert lines == lines[..n - 1] + [lines[n - 1]];
    TerminatedSnoc(lines[..n - 1], lines[n - 1]);
    var front := Terminated(lines[..n - 1]) + lines[n - 1];
    assert j + "\n" == front + "\n";
    assert j == (j + "\n")[..|j|] == (front + "\n")[..|front|] == front;
    assert j[|j| - 1] == lines[n - 1][|lines[n - 1]| - 1];
    assert j == name + "\n" + Join(lines[1..], "\n");
    assert j[0] == name[0];
    TrimPadded("\n", j, "\n");
    assert SavedText(name, itemType, stats) == "\n" + j + "\n";
    assert SepFree(lines, '\n') by {
      assert forall k | 2 <= k < n :: lines[k] == stats[k - 2];
    }
    SplitJoin(lines, '\n');
    assert lines[2..] == stats;
  }

  /** The content loop of `saveItem`: a line feed, then the name, the type and each stat, each followed by a line feed. */
  method ItemBlock(name: string, itemType: string, stats: seq<string>) returns (content: string)
    ensures content == SavedText(name, itemType, stats)
  {
    content := "\n";
    content := content + name + "\n";
    content := content + itemType + "\n";
    assert [name, itemType] + stats[..0] == [name, itemType];
    assert Terminated([name, itemType]) == name + "\n" + (itemType + "\n" + Terminated([]));
    var i := 0;
    while i < |stats|
      invariant 0 <= i <= |stats|
      invariant content == "\n" + Terminated([name, itemType] + stats[..i])
    {
      TerminatedSnoc([name, itemType] + stats[..i], stats[i]);
      assert [name, itemType] + stats[..i + 1] == [name, itemType] + stats[..i] + [stats[i]];
      content := content + stats[i] + "\n";
      i := i + 1;
    }
    assert stats[..i] == stats;
  }

  /** The parser's state: the limiter's timestamps and the text appended to the data file. */
  class SafeDataParser {
    var requests: seq<int>
    var appended: string

    constructor()
      ensures requests == [] && appended == ""
    {
      requests := [];
      appended := "";
    }

    /**
     * `validateItemFormat`: runs the four checks in order, pushing a message
     * for each that fails; valid when none did.
     */
    method ValidateItemFormat(item: ItemRecord) returns (v: Validation)
      ensures v.errors == ValidationErrors(item)
      ensures v.valid <==> v.errors == []
    {
      ghost var f := FlagsOf(item);
      var errors: seq<string> := [];
      if !TruthyStr(item.name) || Trim(item.name.value) == "" {
        errors := errors + [NameRequired];
      }
      assert errors == if f.blankName then [NameRequired] else [];
      ghost var e1 := errors;
      if !TruthyStr(item.itemType) || Trim(item.itemType.value) == "" {
        errors := errors + [TypeRequired];
      }
      assert errors == e1 + if f.blankType then [TypeRequired] else [];
      ghost var e2 := errors;
      if TruthyStr(item.name) && |item.name.value| > 100 {
        errors := errors + [NameTooLong];
      }
      assert errors == e2 + if f.longName then [NameTooLong] else [];
      ghost var e3 := errors;
      if TruthyStr(item.source) && Contains(item.source.value, Automated) {
        errors := errors + [AutomatedSource];
      }
      assert errors == e3 + if f.automated then [AutomatedSource] else [];
      ErrorsByCheck(f);
      v := Validation(|errors| == 0, errors);
    }

    /**
     * `safeAPICall` at time `now`: drops the timestamps that left the window,
     * waits (the returned duration) when the window is full, records `now` and
     * reports success.
     */
    method SafeApiCall(now: int) returns (wait: Option<int>, r: ApiResult)
      modifies this
      ensures requests == Retained(old(requests), now) + [now]
      ensures wait == WaitTime(Retained(old(requests), now), now)
      ensures r == ApiResult(true, "Rate-limited call successful")
      ensures appended == old(appended)
    {
      RetainedMembers(requests, now);
      requests := Retained(requests, now);
      wait := WaitTime(requests, now);
      requests := requests + [now];
      r := ApiResult(true, "Rate-limited call successful");
    }

    /**
     * `saveItem`: an invalid item is refused and nothing is written; a valid
     * one has its block appended to the data file.
     */
    method SaveItem(item: ItemRecord) returns (ok: bool)
      modifies this
      ensures ok <==> ValidationErrors(item) == []
      ensures ok ==> appended == old(appended) + SavedText(item.name.value, item.itemType.value, item.stats)
      ensures !ok ==> appended == old(appended)
      ensures requests == old(requests)
    {
      var validation := ValidateItemFormat(item);
      if !validation.valid {
        return false;
      }
      ValidIff(item);
      var content := ItemBlock(item.name.value, item.itemType.value, item.stats);
      appended := appended + content;
      return true;
    }
  }

  /** Each call records exactly one timestamp, `now`, after the ones still in the window. */
  lemma SafeApiCallRecords(requests: seq<int>, now: int)
    ensures var after := Retained(requests, now) + [now];
      && |after| <= |requests| + 1
      && after[|after| - 1] == now
      && forall t | t in after :: now - t < TimeWindow
  {
    RetainedMembers(requests, now);
  }

  /** With a clock that does not go back, the limiter's timestamps stay in order. */
  lemma SafeApiCallKeepsOrder(requests: seq<int>, now: int)
    requires Sorted(requests) && forall t | t in requests :: t <= now
    ensures Sorted(Retained(requests, now) + [now])
  {
    RetainedSuffix(requests, now);
    var r := Retained(requests, now);
    var d := |requests| - |r|;
    forall i | 0 <= i < |r|
      ensures r[i] == requests[d + i] && r[i] <= now
    {
      assert requests[d + i] in requests;
    }
    var s := r + [now];
    forall i, j | 0 <= i < j < |s|
      ensures s[i] <= s[j]
    {
      assert s[i] == r[i];
      if j < |r| {
        assert s[j] == requests[d + j];
      }
    }
  }
}
