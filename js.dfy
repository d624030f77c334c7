/**
  The slice of JavaScript the core relies on: the dynamic values that a
  parsed JSON body can hold, truthiness, property reads, and the string
  built-ins the service layer calls (trim, toUpperCase, split, includes,
  startsWith).
 */
module Js {

  /** A JavaScript value as JSON.parse can produce it, plus `undefined`,
      which a property read yields for a missing key. Numbers are kept as
      reals; JSON never yields NaN. */
  datatype JsValue =
    | JUndefined
    | JNull
    | JBool(b: bool)
    | JNum(n: real)
    | JStr(s: string)
    | JArr(items: seq<JsValue>)
    | JObj(fields: map<string, JsValue>)

  /** JavaScript truthiness: false, 0, "", null and undefined are falsy. */
  predicate Truthy(v: JsValue) {
    match v
    case JUndefined => false
    case JNull => false
    case JBool(b) => b
    case JNum(n) => n != 0.0
    case JStr(s) => s != ""
    case JArr(_) => true
    case JObj(_) => true
  }

  /** `v?.key`: an own property of an object, otherwise undefined. The keys
      the core reads ("plan", "userPlan", "url", "data", "message") are not
      inherited by any value, so only own properties matter. A plain `v.key`
      on null or undefined throws; callers test for that themselves. */
  function Field(v: JsValue, key: string): (r: JsValue)
    ensures !v.JObj? ==> r == JUndefined
    ensures v.JObj? && key !in v.fields ==> r == JUndefined
  {
    match v
    case JObj(m) => if key in m then m[key] else JUndefined
    case _ => JUndefined
  }

  /** `a || b` on values: the first operand when it is truthy, else the second. */
  function Or(a: JsValue, b: JsValue): (r: JsValue)
    ensures Truthy(r) <==> Truthy(a) || Truthy(b)
    ensures r == a || r == b
  {
    if Truthy(a) then a else b
  }

  // ---------------------------------------------------------------------
  // Strings
  // ---------------------------------------------------------------------

  /** The characters String.prototype.trim removes: ECMAScript WhiteSpace
      (including the Unicode space separators) and LineTerminator. */
  predicate IsWhitespace(c: char) {
    c == '\t' || c == '\n' || c == '\U{000B}' || c == '\U{000C}' || c == '\r' ||
    c == ' ' || c == '\U{00A0}' || c == '\U{1680}' ||
    ('\U{2000}' <= c <= '\U{200A}') ||
    c == '\U{2028}' || c == '\U{2029}' || c == '\U{202F}' || c == '\U{205F}' ||
    c == '\U{3000}' || c == '\U{FEFF}'
  }

  predicate AllWhitespace(s: string) {
    forall i | 0 <= i < |s| :: IsWhitespace(s[i])
  }

  /** The first position at or after `k` that does not hold whitespace
      (|s| when there is none). */
  function SkipWhitespace(s: string, k: nat): (n: nat)
    requires k <= |s|
    ensures k <= n <= |s|
    ensures forall j | k <= j < n :: IsWhitespace(s[j])
    ensures n < |s| ==> !IsWhitespace(s[n])
    decreases |s| - k
  {
    if k < |s| && IsWhitespace(s[k]) then SkipWhitespace(s, k + 1) else k
  }

  /** Walking back from `k` no further than `lo`: one past the last position
      below `k` that does not hold whitespace (`lo` when there is none). */
  function BackWhitespace(s: string, lo: nat, k: nat): (m: nat)
    requires lo <= k <= |s|
    ensures lo <= m <= k
    ensures forall j | m <= j < k :: IsWhitespace(s[j])
    ensures m > lo ==> !IsWhitespace(s[m - 1])
    decreases k
  {
    if k > lo && IsWhitespace(s[k - 1]) then BackWhitespace(s, lo, k - 1) else k
  }

  /** Where String.prototype.trim cuts: only whitespace before `lo` and
      from `hi` on, and a kept part that neither starts nor ends with
      whitespace. */
  function TrimBounds(s: string): (b: (nat, nat))
    ensures b.0 <= b.1 <= |s|
    ensures forall j | 0 <= j < b.0 :: IsWhitespace(s[j])
    ensures forall j | b.1 <= j < |s| :: IsWhitespace(s[j])
    ensures b.0 < b.1 ==> !IsWhitespace(s[b.0]) && !IsWhitespace(s[b.1 - 1])
  {
    var lo := SkipWhitespace(s, 0);
    (lo, BackWhitespace(s, lo, |s|))
  }

  /** String.prototype.trim: the slice of `s` between the cuts. */
  function Trim(s: string): (r: string)
    ensures |r| <= |s|
    ensures r == [] <==> AllWhitespace(s)
    ensures r != [] ==> !IsWhitespace(r[0]) && !IsWhitespace(r[|r| - 1])
  {
    var b := TrimBounds(s);
    assert b.0 < b.1 ==> s[b.0..b.1][0] == s[b.0];
    s[b.0..b.1]
  }

  lemma WhitespaceSlice(s: string, a: nat, b: nat)
    requires a <= b <= |s|
    requires forall j | a <= j < b :: IsWhitespace(s[j])
    ensures AllWhitespace(s[a..b])
  {
    assert forall j | 0 <= j < b - a :: s[a..b][j] == s[a + j];
  }

  /** SkipWhitespace stops at the first non-whitespace position. */
  lemma {:induction false} SkipLands(s: string, k: nat, n: nat)
    requires k <= n <= |s|
    requires forall j | k <= j < n :: IsWhitespace(s[j])
    requires n < |s| ==> !IsWhitespace(s[n])
    ensures SkipWhitespace(s, k) == n
    decreases n - k
  {
    if k < n {
      SkipLands(s, k + 1, n);
    }
  }

  /** BackWhitespace stops just after the last non-whitespace position. */
  lemma {:induction false} BackLands(s: string, lo: nat, k: nat, m: nat)
    requires lo <= m <= k <= |s|
    requires forall j | m <= j < k :: IsWhitespace(s[j])
    requires m > lo ==> !IsWhitespace(s[m - 1])
    ensures BackWhitespace(s, lo, k) == m
    decreases k - m
  {
    if m < k {
      BackLands(s, lo, k - 1, m);
    }
  }

  /** Removing whitespace padding around a core that neither starts nor ends
      with whitespace gives back exactly that core. */
  lemma TrimPadded(w1: string, core: string, w2: string)
    requires AllWhitespace(w1) && AllWhitespace(w2)
    requires core != [] ==> !IsWhitespace(core[0]) && !IsWhitespace(core[|core| - 1])
    ensures Trim(w1 + core + w2) == core
  {
    var s := w1 + core + w2;
    var lo, hi := |w1|, |w1| + |core|;
    assert forall j | 0 <= j < lo :: s[j] == w1[j];
    assert forall j | hi <= j < |s| :: s[j] == w2[j - hi];
    if core == [] {
      SkipLands(s, 0, |s|);
      BackLands(s, |s|, |s|, |s|);
    } else {
      assert s[lo] == core[0] && s[hi - 1] == core[|core| - 1];
      SkipLands(s, 0, lo);
      BackLands(s, lo, |s|, hi);
      assert s[lo..hi] == core;
    }
  }

  /** String.prototype.toUpperCase on one character. Only the ASCII letters
      are mapped; see the README for why this suffices here. */
  function UpperChar(c: char): (u: char)
    ensures 'a' <= c <= 'z' ==> 'A' <= u <= 'Z'
    ensures !('a' <= c <= 'z') ==> u == c
  {
    if 'a' <= c <= 'z' then (c as int - 'a' as int + 'A' as int) as char else c
  }

  function ToUpper(s: string): (r: string)
    ensures |r| == |s|
    ensures forall i | 0 <= i < |s| :: r[i] == UpperChar(s[i])
  {
    if s == [] then [] else [UpperChar(s[0])] + ToUpper(s[1..])
  }

  /** `s.startsWith(p)`: `p` occurs at the very start of `s`. */
  function StartsWith(s: string, p: string): (r: bool)
    ensures r <==> OccursAt(s, p, 0)
    ensures r ==> forall k | 0 <= k < |p| :: s[k] == p[k]
  {
    |p| <= |s| && s[..|p|] == p
  }

  /** `sub` occurs in `s` starting at position `i`. */
  predicate OccursAt(s: string, sub: string, i: int) {
    0 <= i && i + |sub| <= |s| && s[i..i + |sub|] == sub
  }

  /** `s.includes(sub)`: `sub` occurs somewhere in `s`. */
  function Includes(s: string, sub: string): (r: bool)
    ensures r <==> exists i :: OccursAt(s, sub, i)
    decreases |s|
  {
    if StartsWith(s, sub) then
      assert OccursAt(s, sub, 0);
      true
    else if s == [] then
      false
    else
      var r := Includes(s[1..], sub);
      assert forall i :: OccursAt(s, sub, i) && i >= 1 ==> OccursAt(s[1..], sub, i - 1);
      assert forall i :: OccursAt(s[1..], sub, i) ==> OccursAt(s, sub, i + 1);
      r
  }

  /** Position of the first occurrence of `c` in `s`. */
  function IndexOf(s: string, c: char): (i: nat)
    requires c in s
    ensures i < |s| && s[i] == c && c !in s[..i]
  {
    if s[0] == c then 0 else 1 + IndexOf(s[1..], c)
  }

  /** Inverse of Split: the parts glued back with the separator. */
  function Join(parts: seq<string>, sep: char): string
    requires |parts| >= 1
  {
    if |parts| == 1 then parts[0] else parts[0] + [sep] + Join(parts[1..], sep)
  }

  /** `s.split(sep)` for a one-character separator: at least one part, no
      part contains the separator, and joining the parts gives `s` back. */
  function Split(s: string, sep: char): (parts: seq<string>)
    ensures |parts| >= 1
    ensures forall k | 0 <= k < |parts| :: sep !in parts[k]
    ensures Join(parts, sep) == s
    decreases |s|
  {
    if sep !in s then [s]
    else
      var i := IndexOf(s, sep);
      var rest := Split(s[i + 1..], sep);
      assert s == s[..i] + [sep] + s[i + 1..];
      [s[..i]] + rest
  }

  /** With two parts or more, the second part follows the first one and a
      separator. */
  lemma JoinHead(parts: seq<string>, sep: char)
    requires |parts| >= 2
    ensures OccursAt(Join(parts, sep), [sep] + parts[1], |parts[0]|)
  {
    var rest := Join(parts[1..], sep);
    if |parts| == 2 {
      assert rest == parts[1];
    } else {
      assert parts[1..][1..] == parts[2..];
      assert rest == parts[1] + [sep] + Join(parts[2..], sep);
    }
    var j := Join(parts, sep);
    assert j == parts[0] + [sep] + rest;
    assert j[|parts[0]|..|parts[0]| + 1 + |parts[1]|] == [sep] + parts[1];
  }

  /** Splitting at a separator that the head does not contain yields the head
      followed by the parts of the tail. */
  lemma SplitAfterHead(head: string, sep: char, tail: string)
    requires sep !in head
    ensures Split(head + [sep] + tail, sep) == [head] + Split(tail, sep)
  {
    var s := head + [sep] + tail;
    assert s[|head|] == sep;
    var i := IndexOf(s, sep);
    assert s[..i] == head;
    assert s[i + 1..] == tail;
  }
}
