/**
 * The string operations of JavaScript that the core relies on:
 * `trim`, `includes`, `split` on a one-character separator, `Array.prototype.join`
 * and the decimal rendering of an integer inside a template literal.
 * Strings are sequences of Unicode code points.
 */
module JsStrings {

  /**
   * The code points that ECMAScript's `String.prototype.trim` removes:
   * WhiteSpace (TAB, VT, FF, SP, NBSP, ZWNBSP and the Zs category) and
   * LineTerminator (LF, CR, LS, PS).
   */
  predicate IsSpace(c: char) {
    var n := c as int;
    n == 0x09 || n == 0x0A || n == 0x0B || n == 0x0C || n == 0x0D || n == 0x20 ||
    n == 0xA0 || n == 0x1680 || (0x2000 <= n <= 0x200A) || n == 0x2028 ||
    n == 0x2029 || n == 0x202F || n == 0x205F || n == 0x3000 || n == 0xFEFF
  }

  predicate AllSpace(s: string) {
    forall i | 0 <= i < |s| :: IsSpace(s[i])
  }

  /** `s.trimStart()`: `s` without its leading white space. */
  function TrimStart(s: string): string
    decreases |s|
  {
    if |s| > 0 && IsSpace(s[0]) then TrimStart(s[1..]) else s
  }

  /** `trimStart` gives a suffix of `s` that does not start with white space. */
  lemma {:induction false} TrimStartShape(s: string)
    ensures |TrimStart(s)| <= |s| && TrimStart(s) == s[|s| - |TrimStart(s)|..]
    ensures TrimStart(s) == [] || !IsSpace(TrimStart(s)[0])
    decreases |s|
  {
    if |s| > 0 && IsSpace(s[0]) {
      TrimStartShape(s[1..]);
    }
  }

  /** What `trimStart` removes is white space. */
  lemma {:induction false} TrimStartRemovesSpace(s: string)
    ensures |TrimStart(s)| <= |s| && AllSpace(s[..|s| - |TrimStart(s)|])
    decreases |s|
  {
    TrimStartShape(s);
    if |s| > 0 && IsSpace(s[0]) {
      TrimStartRemovesSpace(s[1..]);
      var k := |s| - |TrimStart(s)|;
      assert forall i | 1 <= i < k :: s[..k][i] == s[1..][..k - 1][i - 1];
    }
  }

  /** `s.trimEnd()`: `s` without its trailing white space. */
  function TrimEnd(s: string): string
    decreases |s|
  {
    if |s| > 0 && IsSpace(s[|s| - 1]) then TrimEnd(s[..|s| - 1]) else s
  }

  /** `trimEnd` gives a prefix of `s` that does not end with white space. */
  lemma {:induction false} TrimEndShape(s: string)
    ensures |TrimEnd(s)| <= |s| && TrimEnd(s) == s[..|TrimEnd(s)|]
    ensures TrimEnd(s) == [] || !IsSpace(TrimEnd(s)[|TrimEnd(s)| - 1])
    decreases |s|
  {
    if |s| > 0 && IsSpace(s[|s| - 1]) {
      TrimEndShape(s[..|s| - 1]);
    }
  }

  /** What `trimEnd` removes is white space. */
  lemma {:induction false} TrimEndRemovesSpace(s: string)
    ensures |TrimEnd(s)| <= |s| && AllSpace(s[|TrimEnd(s)|..])
    decreases |s|
  {
    TrimEndShape(s);
    if |s| > 0 && IsSpace(s[|s| - 1]) {
      TrimEndRemovesSpace(s[..|s| - 1]);
      var k := |TrimEnd(s)|;
      assert forall i | 0 <= i < |s| - 1 - k :: s[k..][i] == s[..|s| - 1][k..][i];
    }
  }

  /** `s.trim()`. */
  function Trim(s: string): string {
    TrimEnd(TrimStart(s))
  }

  /** The trim is no longer than `s`, and neither starts nor ends with white space. */
  lemma TrimShape(s: string)
    ensures |Trim(s)| <= |s|
    ensures Trim(s) == [] || (!IsSpace(Trim(s)[0]) && !IsSpace(Trim(s)[|Trim(s)| - 1]))
  {
    var t := TrimStart(s);
    TrimStartShape(s);
    TrimEndShape(t);
    var r := TrimEnd(t);
    assert r != [] ==> r[0] == t[0];
  }

  /** Trimming only removes characters: every character of the trim occurs in the original. */
  lemma TrimChars(s: string)
    ensures forall c | c in Trim(s) :: c in s
  {
    var t := TrimStart(s);
    TrimStartShape(s);
    TrimEndShape(t);
    assert forall c | c in t :: c in s by {
      assert forall i | 0 <= i < |t| :: t[i] == s[|s| - |t| + i];
    }
    assert forall c | c in TrimEnd(t) :: c in t by {
      var r := TrimEnd(t);
      assert forall i | 0 <= i < |r| :: r[i] == t[i];
    }
  }

  /** The trim of `s` is empty exactly when `s` is all white space. */
  lemma TrimEmptyIff(s: string)
    ensures Trim(s) == [] <==> AllSpace(s)
  {
    var t := TrimStart(s);
    var r := TrimEnd(t);
    TrimStartShape(s);
    TrimEndShape(t);
    if r == [] {
      TrimStartRemovesSpace(s);
      TrimEndRemovesSpace(t);
      assert t[0..] == t;
      assert s == s[..|s| - |t|] + t;
    }
    if AllSpace(s) {
      TrimStartOfSpaces(s);
    }
  }

  lemma {:induction false} TrimStartOfSpaces(s: string)
    requires AllSpace(s)
    ensures TrimStart(s) == []
    decreases |s|
  {
    if s != [] {
      TrimStartOfSpaces(s[1..]);
    }
  }

  /**
   * Trimming removes exactly the white-space padding around a core that
   * neither starts nor ends with white space.
   */
  lemma {:induction false} TrimPadded(a: string, m: string, b: string)
    requires AllSpace(a) && AllSpace(b)
    requires m == [] || (!IsSpace(m[0]) && !IsSpace(m[|m| - 1]))
    ensures Trim(a + m + b) == m
  {
    if m == [] {
      assert a + m + b == a + b;
      assert AllSpace(a + b);
      TrimStartPadded(a + b, []);
      assert a + b + [] == a + b;
      assert Trim(a + b) == TrimEnd(TrimStart(a + b));
    } else {
      assert a + m + b == a + (m + b);
      TrimStartPadded(a, m + b);
      TrimEndPadded(m, b);
    }
  }

  lemma {:induction false} TrimStartPadded(a: string, m: string)
    requires AllSpace(a)
    requires m == [] || !IsSpace(m[0])
    ensures TrimStart(a + m) == m
    decreases |a|
  {
    if a != [] {
      assert (a + m)[0] == a[0];
      assert (a + m)[1..] == a[1..] + m;
      TrimStartPadded(a[1..], m);
    } else {
      assert a + m == m;
    }
  }

  lemma {:induction false} TrimEndPadded(m: string, b: string)
    requires AllSpace(b)
    requires m == [] || !IsSpace(m[|m| - 1])
    ensures TrimEnd(m + b) == m
    decreases |b|
  {
    if b != [] {
      var s := m + b;
      assert s[|s| - 1] == b[|b| - 1];
      assert s[..|s| - 1] == m + b[..|b| - 1];
      TrimEndPadded(m, b[..|b| - 1]);
    } else {
      assert m + b == m;
    }
  }

  /** A string whose first and last characters are not white space is its own trim. */
  lemma TrimIdentity(s: string)
    requires s == [] || (!IsSpace(s[0]) && !IsSpace(s[|s| - 1]))
    ensures Trim(s) == s
  {
    TrimPadded([], s, []);
    assert [] + s + [] == s;
  }

  /** `s.includes(sub)` holds at position `i`. */
  predicate MatchesAt(s: string, sub: string, i: int) {
    0 <= i && i + |sub| <= |s| && s[i..i + |sub|] == sub
  }

  /** `s.includes(sub)`. */
  predicate Contains(s: string, sub: string) {
    exists i | 0 <= i <= |s| - |sub| :: MatchesAt(s, sub, i)
  }

  /** An occurrence at a known position. */
  lemma ContainsAt(s: string, sub: string, i: int)
    requires 0 <= i && i + |sub| <= |s| && s[i..i + |sub|] == sub
    ensures Contains(s, sub)
  {
    assert MatchesAt(s, sub, i);
  }

  /** `s` cannot contain `sub` when one of `sub`'s characters does not occur in `s`. */
  lemma {:induction false} MissingCharNotContains(s: string, sub: string, k: int)
    requires 0 <= k < |sub| && sub[k] !in s
    ensures !Contains(s, sub)
  {
    forall i | 0 <= i <= |s| - |sub|
      ensures !MatchesAt(s, sub, i)
    {
      assert s[i + k] in s;
      assert s[i..i + |sub|][k] == s[i + k];
    }
  }

  /**
   * An occurrence in `a + b` starts either in `a`, and then lies within `a`
   * followed by fewer than `|sub|` characters of `b`, or inside `b`.
   */
  lemma {:induction false} ContainsSplit(a: string, b: string, sub: string, n: nat)
    requires |sub| > 0 && n == |sub| - 1 && n <= |b|
    requires !Contains(a + b[..n], sub) && !Contains(b, sub)
    ensures !Contains(a + b, sub)
  {
    var s := a + b;
    var t := a + b[..n];
    forall i | 0 <= i <= |s| - |sub|
      ensures !MatchesAt(s, sub, i)
    {
      if i < |a| {
        assert t[i..i + |sub|] == s[i..i + |sub|];
        assert !MatchesAt(t, sub, i);
      } else {
        var j := i - |a|;
        assert b[j..j + |sub|] == s[i..i + |sub|];
        assert !MatchesAt(b, sub, j);
      }
    }
  }

  /** A part of a concatenation is contained in it. */
  lemma ContainsMiddle(a: string, m: string, b: string)
    ensures Contains(a + m + b, m)
  {
    var s := a + m + b;
    assert s[|a|..|a| + |m|] == m;
    assert MatchesAt(s, m, |a|);
  }

  /** `s.split(sep)` for a one-character separator; `"".split(sep)` is `[""]`. */
  function Split(s: string, sep: char): (parts: seq<string>)
    ensures |parts| >= 1
    ensures forall k | 0 <= k < |parts| :: sep !in parts[k]
    decreases |s|
  {
    if s == [] then [""]
    else
      var rest := Split(s[1..], sep);
      if s[0] == sep then [""] + rest
      else [[s[0]] + rest[0]] + rest[1..]
  }

  /** `parts.join(sep)`. */
  function Join(parts: seq<string>, sep: string): string
    decreases |parts|
  {
    if |parts| == 0 then ""
    else if |parts| == 1 then parts[0]
    else parts[0] + sep + Join(parts[1..], sep)
  }

  predicate SepFree(parts: seq<string>, sep: char) {
    forall k | 0 <= k < |parts| :: sep !in parts[k]
  }

  /** Separator-free parts stay separator-free when concatenated. */
  lemma SepFreeAppend(a: seq<string>, b: seq<string>, sep: char)
    requires SepFree(a, sep) && SepFree(b, sep)
    ensures SepFree(a + b, sep)
  {
    assert forall k | |a| <= k < |a + b| :: (a + b)[k] == b[k - |a|];
  }

  /** A string without the separator splits into itself alone. */
  lemma {:induction false} SplitSepFree(w: string, sep: char)
    requires sep !in w
    ensures Split(w, sep) == [w]
    decreases |w|
  {
    if w != [] {
      SplitSepFree(w[1..], sep);
      assert [w[0]] + w[1..] == w;
    }
  }

  /** A string splits into a single part exactly when it holds no separator. */
  lemma SplitSingleIff(s: string, sep: char)
    ensures |Split(s, sep)| == 1 <==> sep !in s
  {
    if |Split(s, sep)| == 1 {
      JoinSplit(s, sep);
      assert Join(Split(s, sep), [sep]) == Split(s, sep)[0];
    }
    if sep !in s {
      SplitSepFree(s, sep);
    }
  }

  /** Splitting peels off a separator-free first part. */
  lemma {:induction false} SplitCons(w: string, t: string, sep: char)
    requires sep !in w
    ensures Split(w + [sep] + t, sep) == [w] + Split(t, sep)
    decreases |w|
  {
    var s := w + [sep] + t;
    if w == [] {
      assert s[0] == sep && s[1..] == t;
    } else {
      assert s[0] == w[0];
      assert s[1..] == w[1..] + [sep] + t;
      SplitCons(w[1..], t, sep);
      assert [w[0]] + w[1..] == w;
    }
  }

  /** Split inverts join: separator-free parts joined with the separator split back into themselves. */
  lemma {:induction false} SplitJoin(parts: seq<string>, sep: char)
    requires |parts| >= 1 && SepFree(parts, sep)
    ensures Split(Join(parts, [sep]), sep) == parts
    decreases |parts|
  {
    if |parts| == 1 {
      SplitSepFree(parts[0], sep);
    } else {
      SplitJoin(parts[1..], sep);
      SplitCons(parts[0], Join(parts[1..], [sep]), sep);
      assert [parts[0]] + parts[1..] == parts;
    }
  }

  /** Split reads back the first `n` parts of a join when those parts are separator-free, whatever follows them. */
  lemma {:induction false} SplitJoinPrefix(parts: seq<string>, n: nat, sep: char)
    requires n < |parts|
    requires forall k | 0 <= k < n :: sep !in parts[k]
    ensures |Split(Join(parts, [sep]), sep)| > n
    ensures forall k | 0 <= k < n :: Split(Join(parts, [sep]), sep)[k] == parts[k]
    decreases n
  {
    if n > 0 {
      assert forall k | 0 <= k < n - 1 :: parts[1..][k] == parts[k + 1];
      SplitJoinPrefix(parts[1..], n - 1, sep);
      SplitCons(parts[0], Join(parts[1..], [sep]), sep);
    }
  }

  lemma JoinConsHead(c: char, x: string, y: seq<string>, sep: string)
    ensures Join([[c] + x] + y, sep) == [c] + Join([x] + y, sep)
  {
    var p := [[c] + x] + y;
    var q := [x] + y;
    assert p[1..] == y && q[1..] == y;
  }

  /** Join inverts split: the parts of `s` joined with the separator give `s` back. */
  lemma {:induction false} JoinSplit(s: string, sep: char)
    ensures Join(Split(s, sep), [sep]) == s
    decreases |s|
  {
    if s != [] {
      var rest := Split(s[1..], sep);
      JoinSplit(s[1..], sep);
      if s[0] == sep {
        var p := [""] + rest;
        assert p[1..] == rest;
        assert s == [sep] + s[1..];
      } else {
        JoinConsHead(s[0], rest[0], rest[1..], [sep]);
        assert [rest[0]] + rest[1..] == rest;
        assert s == [s[0]] + s[1..];
      }
    }
  }

  /** Joining parts that lack a character, with a separator that lacks it too, gives a string without it. */
  lemma {:induction false} JoinLacks(parts: seq<string>, sep: string, c: char)
    requires c !in sep && forall k | 0 <= k < |parts| :: c !in parts[k]
    ensures c !in Join(parts, sep)
    decreases |parts|
  {
    if |parts| > 1 {
      JoinLacks(parts[1..], sep, c);
      assert forall k | 0 <= k < |parts| - 1 :: parts[1..][k] == parts[k + 1];
    }
  }

  /** A concatenation lacks every character both of its halves lack. */
  lemma ConcatLacks(a: string, b: string, c: char)
    requires c !in a && c !in b
    ensures c !in a + b
  {
    assert forall i | 0 <= i < |a + b| :: (a + b)[i] == if i < |a| then a[i] else b[i - |a|];
  }

  /** The decimal digit character for `d`. */
  function DigitChar(d: nat): (c: char)
    requires d < 10
    ensures '0' <= c <= '9'
  {
    ('0' as int + d) as char
  }

  function DigitValue(c: char): nat {
    if '0' <= c <= '9' then (c as int - '0' as int) as nat else 0
  }

  /** The value of a string of decimal digits. */
  function DecimalValue(s: string): nat
    decreases |s|
  {
    if s == [] then 0 else DecimalValue(s[..|s| - 1]) * 10 + DigitValue(s[|s| - 1])
  }

  predicate IsDigits(s: string) {
    forall i | 0 <= i < |s| :: '0' <= s[i] <= '9'
  }

  /** `String(n)` for a natural number: its shortest decimal numeral. */
  function NatToString(n: nat): (r: string)
    ensures |r| >= 1 && IsDigits(r)
    ensures r[0] == '0' ==> n == 0
    decreases n
  {
    if n < 10 then [DigitChar(n)] else NatToString(n / 10) + [DigitChar(n % 10)]
  }

  /** The numeral reads back as the number it renders. */
  lemma {:induction false} NatToStringValue(n: nat)
    ensures DecimalValue(NatToString(n)) == n
    decreases n
  {
    var r := NatToString(n);
    if n >= 10 {
      NatToStringValue(n / 10);
      assert r[..|r| - 1] == NatToString(n / 10);
    }
  }

  /** `String(n)` for an integer. */
  function IntToString(n: int): (r: string)
    ensures |r| >= 1
    ensures (r[0] == '-') <==> n < 0
    ensures forall i | 0 <= i < |r| :: r[i] == '-' || '0' <= r[i] <= '9'
  {
    if n < 0 then "-" + NatToString(-n) else NatToString(n)
  }
}
