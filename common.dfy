/** Values and helpers shared by the components: an optional value (a field
    that may be `undefined`), the three-way preference, ECMAScript's
    `String.prototype.trim`, and the counts of annotated items. */
module Common {

  datatype Option<+T> = None | Some(value: T)

  /** The preference a reviewer records: `"A" | "B" | "tie"`. An item without
      a preference holds `None`. */
  datatype Preference = A | B | Tie

  // ---------------------------------------------------------------------------
  // String.prototype.trim
  // ---------------------------------------------------------------------------

  /** The ECMAScript WhiteSpace and LineTerminator code points; `trim` strips
      exactly these from both ends of a string. */
  predicate IsJsWhiteSpace(c: char) {
    || c == '\t' || c == '\U{B}' || c == '\U{C}' || c == ' '
    || c == '\U{A0}' || c == '\U{FEFF}' || c == '\U{1680}'
    || ('\U{2000}' <= c <= '\U{200A}')
    || c == '\U{202F}' || c == '\U{205F}' || c == '\U{3000}'
    || c == '\n' || c == '\r' || c == '\U{2028}' || c == '\U{2029}'
  }

  predicate AllWhiteSpace(s: string) {
    forall i :: 0 <= i < |s| ==> IsJsWhiteSpace(s[i])
  }

  /** The first index at or after `i` that is not white space (or `|s|`):
      everything skipped is white space. */
  function SkipLeading(s: string, i: nat): (r: nat)
    requires i <= |s|
    ensures i <= r <= |s|
    ensures forall k :: i <= k < r ==> IsJsWhiteSpace(s[k])
    ensures r == |s| || !IsJsWhiteSpace(s[r])
    decreases |s| - i
  {
    if i < |s| && IsJsWhiteSpace(s[i]) then SkipLeading(s, i + 1) else i
  }

  /** Walking back from `j`, but not past `lo`, the end of the last character
      that is not white space (or `lo`): everything skipped is white space. */
  function SkipTrailing(s: string, lo: nat, j: nat): (r: nat)
    requires lo <= j <= |s|
    ensures lo <= r <= j
    ensures forall k :: r <= k < j ==> IsJsWhiteSpace(s[k])
    ensures r == lo || !IsJsWhiteSpace(s[r - 1])
    decreases j
  {
    if j > lo && IsJsWhiteSpace(s[j - 1]) then SkipTrailing(s, lo, j - 1) else j
  }

  /** `s.trim()`: white space is dropped from the start, then from the end. */
  function Trim(s: string): (t: string)
    ensures |t| <= |s|
    ensures t == [] || (!IsJsWhiteSpace(t[0]) && !IsJsWhiteSpace(t[|t| - 1]))
  {
    var start := SkipLeading(s, 0);
    s[start..SkipTrailing(s, start, |s|)]
  }

  /** The string that `trim` leaves is a contiguous piece of the input with
      only white space around it, and neither of its ends is white space. */
  lemma TrimShape(s: string)
    ensures var i := SkipLeading(s, 0);
      && i + |Trim(s)| <= |s| && Trim(s) == s[i..i + |Trim(s)|]
      && AllWhiteSpace(s[..i]) && AllWhiteSpace(s[i + |Trim(s)|..])
    ensures Trim(s) == [] || (!IsJsWhiteSpace(Trim(s)[0]) && !IsJsWhiteSpace(Trim(s)[|Trim(s)| - 1]))
  {
    var i := SkipLeading(s, 0);
    var j := SkipTrailing(s, i, |s|);
    assert forall k :: 0 <= k < |s| - j ==> s[j..][k] == s[j + k];
  }

  /** `s.trim()` is empty exactly when `s` is nothing but white space, which is
      the test behind the "Missing Information" rejection of an add. */
  lemma TrimEmptyIff(s: string)
    ensures Trim(s) == [] <==> AllWhiteSpace(s)
  {
    var i := SkipLeading(s, 0);
    var j := SkipTrailing(s, i, |s|);
    if Trim(s) == [] {
      // the first character that is not white space would have stopped both walks
      if i < |s| {
        assert false;
      }
    } else if AllWhiteSpace(s) {
      assert false;
    }
  }

  /** Trimming a trimmed string changes nothing. */
  lemma TrimIdempotent(s: string)
    ensures Trim(Trim(s)) == Trim(s)
  {
    var t := Trim(s);
    TrimShape(s);
    if t != [] {
      assert SkipLeading(t, 0) == 0;
      assert SkipTrailing(t, 0, |t|) == |t|;
      assert t[0..|t|] == t;
    }
  }

  // ---------------------------------------------------------------------------
  // Counting preferences: `items.filter(item => item.preference).length` and
  // `items.filter(a => a.preference === p).length`
  // ---------------------------------------------------------------------------

  /** The number of items that carry a preference. */
  function AnnotatedCount(prefs: seq<Option<Preference>>): (n: nat)
    ensures n <= |prefs|
  {
    if prefs == [] then 0
    else (if prefs[0].Some? then 1 else 0) + AnnotatedCount(prefs[1..])
  }

  /** The number of items whose preference is `p`. */
  function CountOf(prefs: seq<Option<Preference>>, p: Preference): (n: nat)
    ensures n <= AnnotatedCount(prefs)
  {
    if prefs == [] then 0
    else (if prefs[0] == Some(p) then 1 else 0) + CountOf(prefs[1..], p)
  }

  /** The A, B and tie counts shown in the summary add up to the annotated count. */
  lemma {:induction false} CountsSumToAnnotated(prefs: seq<Option<Preference>>)
    ensures CountOf(prefs, A) + CountOf(prefs, B) + CountOf(prefs, Tie) == AnnotatedCount(prefs)
  {
    if prefs != [] {
      CountsSumToAnnotated(prefs[1..]);
      match prefs[0]
      case None =>
      case Some(p) => assert p == A || p == B || p == Tie;
    }
  }

  /** The annotated count of a concatenation is the sum of the parts' counts. */
  lemma {:induction false} AnnotatedCountAppend(a: seq<Option<Preference>>, b: seq<Option<Preference>>)
    ensures AnnotatedCount(a + b) == AnnotatedCount(a) + AnnotatedCount(b)
  {
    if a != [] {
      assert (a + b)[1..] == a[1..] + b;
      AnnotatedCountAppend(a[1..], b);
    } else {
      assert a + b == b;
    }
  }

  /** Recording a preference in slot `i` counts that slot as annotated, so the
      count grows by one when the slot had none and is otherwise unchanged;
      the count of `p` grows by one unless the slot already held `p`. */
  lemma {:induction false} CountsAfterRecord(prefs: seq<Option<Preference>>, i: nat, p: Preference)
    requires i < |prefs|
    ensures AnnotatedCount(prefs[i := Some(p)]) == AnnotatedCount(prefs) + (if prefs[i].None? then 1 else 0)
    ensures CountOf(prefs[i := Some(p)], p) == CountOf(prefs, p) + (if prefs[i] == Some(p) then 0 else 1)
  {
    if i > 0 {
      assert prefs[i := Some(p)][1..] == prefs[1..][i - 1 := Some(p)];
      CountsAfterRecord(prefs[1..], i - 1, p);
    } else {
      assert prefs[i := Some(p)][1..] == prefs[1..];
    }
  }

  // ---------------------------------------------------------------------------
  // Percentages
  // ---------------------------------------------------------------------------

  /** `(part / whole) * 100`, the progress figure of every component, as an
      exact ratio: never negative, zero only for no part, at most 100 while
      the part does not exceed the whole, and 100 exactly when they are equal. */
  function Percent(part: nat, whole: nat): (p: real)
    requires whole > 0
    ensures p >= 0.0
    ensures p == 0.0 <==> part == 0
    ensures part <= whole ==> p <= 100.0
    ensures p == 100.0 <==> part == whole
  {
    RatioAgainstOne(part, whole);
    (part as real / whole as real) * 100.0
  }
  /** How `part / whole` compares with 0 and 1. */
  lemma RatioAgainstOne(part: nat, whole: nat)
    requires whole > 0
    ensures var q := part as real / whole as real;
      && q >= 0.0 && (q == 0.0 <==> part == 0)
      && (part < whole ==> q < 1.0) && (part == whole ==> q == 1.0) && (part > whole ==> q > 1.0)
  {
    var q := part as real / whole as real;
    assert q * whole as real == part as real;
    assert (1.0 - q) * whole as real == (whole - part) as real;
  }
  /** A larger part gives a strictly larger percentage. */
  lemma PercentMonotone(a: nat, b: nat, whole: nat)
    requires whole > 0 && a < b
    ensures Percent(a, whole) < Percent(b, whole)
  {
    var w := whole as real;
    assert (b as real) / w == (a as real) / w + ((b - a) as real) / w;
    assert Percent(b - a, whole) > 0.0;
  }
}
