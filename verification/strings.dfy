/** The JavaScript string operations the source relies on: `toLowerCase`, `includes`,
    `replace` with a string or a case-insensitive pattern, `trim`, `replace(/\s+/g, …)`,
    and the decimal conversions `String(n)`, `Number(s)` and `parseInt(s)`. */
module Strings {
  import opened Wrappers
  import Seqs

  /** The characters of JavaScript's `\s` class, which is also the set `trim` strips. */
  predicate IsSpace(c: char) {
    c == ' ' || c == '\t' || c == '\n' || c == '\r' || c == '\U{B}' || c == '\U{C}'
    || c == '\U{A0}' || c == '\U{1680}' || ('\U{2000}' <= c <= '\U{200A}')
    || c == '\U{2028}' || c == '\U{2029}' || c == '\U{202F}' || c == '\U{205F}'
    || c == '\U{3000}' || c == '\U{FEFF}'
  }

  predicate AllSpace(s: string) {
    forall i :: 0 <= i < |s| ==> IsSpace(s[i])
  }

  function LowerChar(c: char): (r: char)
    ensures 'A' <= c <= 'Z' ==> 'a' <= r <= 'z'
    ensures !('A' <= c <= 'Z') ==> r == c
  {
    if 'A' <= c <= 'Z' then (c as int + 32) as char else c
  }

  /** `toLowerCase`, on the ASCII letters. */
  function Lower(s: string): (r: string)
    ensures |r| == |s|
  {
    if s == [] then [] else [LowerChar(s[0])] + Lower(s[1..])
  }

  /** Lower-casing works character by character. */
  lemma {:induction false} LowerPointwise(s: string)
    ensures forall i :: 0 <= i < |s| ==> Lower(s)[i] == LowerChar(s[i])
  {
    if s != [] {
      LowerPointwise(s[1..]);
      assert Lower(s) == [LowerChar(s[0])] + Lower(s[1..]);
    }
  }

  // ---------------------------------------------------------------------------
  // Substring search and replacement. The functions carry no quantified
  // contracts; their meaning is given by the lemmas after them.

  /** `p` occurs in `s` starting at index `i`. */
  predicate OccursAt(s: string, p: string, i: int) {
    0 <= i && i + |p| <= |s| && s[i..i + |p|] == p
  }

  /** `s.includes(p)`, as a specification. */
  ghost predicate Occurs(s: string, p: string) {
    exists i :: OccursAt(s, p, i)
  }

  /** `i` is where `p` first occurs in `s`. */
  ghost predicate IsFirstOccurrence(s: string, p: string, i: int) {
    OccursAt(s, p, i) && forall j :: 0 <= j < i ==> !OccursAt(s, p, j)
  }

  function IndexFrom(s: string, p: string, from: nat): (r: Option<nat>)
    ensures r.Some? ==> from <= r.value && OccursAt(s, p, r.value)
    decreases |s| - from
  {
    if from + |p| > |s| then None
    else if s[from..from + |p|] == p then Some(from)
    else IndexFrom(s, p, from + 1)
  }

  /** The search from `from` skips no occurrence at or after `from`. */
  lemma {:induction false} IndexFromSkipsNone(s: string, p: string, from: nat)
    ensures forall j :: from <= j && (IndexFrom(s, p, from).None? || j < IndexFrom(s, p, from).value) ==> !OccursAt(s, p, j)
    decreases |s| - from
  {
    if from + |p| <= |s| && s[from..from + |p|] != p {
      IndexFromSkipsNone(s, p, from + 1);
    }
  }

  /** `s.indexOf(p)`, with `None` for -1. */
  function IndexOf(s: string, p: string): (r: Option<nat>)
    ensures r.Some? ==> OccursAt(s, p, r.value)
  {
    IndexFrom(s, p, 0)
  }

  /** `indexOf` finds an occurrence exactly when there is one, and then the first. */
  lemma IndexOfFirst(s: string, p: string)
    ensures IndexOf(s, p).Some? <==> Occurs(s, p)
    ensures IndexOf(s, p).Some? ==> IsFirstOccurrence(s, p, IndexOf(s, p).value)
  {
    IndexFromSkipsNone(s, p, 0);
  }

  /** A pattern placed after a prefix that lacks its first character is found right there. */
  lemma IndexOfAfterPrefix(a: string, p: string, b: string)
    requires p != [] && forall j :: 0 <= j < |a| ==> a[j] != p[0]
    ensures IndexOf(a + p + b, p) == Some(|a|)
  {
    var s := a + p + b;
    assert s[|a|..|a| + |p|] == p;
    assert OccursAt(s, p, |a|);
    IndexOfFirst(s, p);
    var i := IndexOf(s, p).value;
    assert i <= |a|;
    assert s[i..i + |p|][0] == p[0];
    assert i == |a|;
  }

  /** `s.includes(p)`. */
  function Contains(s: string, p: string): bool {
    IndexOf(s, p).Some?
  }

  lemma ContainsOccurs(s: string, p: string)
    ensures Contains(s, p) <==> Occurs(s, p)
  {
    IndexOfFirst(s, p);
  }

  /** The empty string occurs in every string. */
  lemma ContainsEmpty(s: string)
    ensures Contains(s, "")
  {
    assert OccursAt(s, "", 0);
  }

  /** `s.replace(p, rep)` with a string pattern: only the first occurrence is replaced
      (the `$` patterns of a replacement string are not part of this model). */
  function ReplaceFirst(s: string, p: string, rep: string): string {
    match IndexOf(s, p)
    case None => s
    case Some(i) => s[..i] + rep + s[i + |p|..]
  }

  lemma ReplaceFirstSpec(s: string, p: string, rep: string)
    ensures !Occurs(s, p) ==> ReplaceFirst(s, p, rep) == s
    ensures Occurs(s, p) ==>
      exists i :: (IsFirstOccurrence(s, p, i) && ReplaceFirst(s, p, rep) == s[..i] + rep + s[i + |p|..])
  {
    IndexOfFirst(s, p);
  }

  /** `s.replace(/p/i, rep)` for a lower-case pattern `p`: the first place where `p`
      matches ignoring case is replaced. */
  function ReplaceFirstIgnoreCase(s: string, p: string, rep: string): string {
    match IndexOf(Lower(s), p)
    case None => s
    case Some(i) => s[..i] + rep + s[i + |p|..]
  }

  lemma ReplaceFirstIgnoreCaseSpec(s: string, p: string, rep: string)
    ensures !Occurs(Lower(s), p) ==> ReplaceFirstIgnoreCase(s, p, rep) == s
    ensures Occurs(Lower(s), p) ==>
      exists i :: (IsFirstOccurrence(Lower(s), p, i) && ReplaceFirstIgnoreCase(s, p, rep) == s[..i] + rep + s[i + |p|..])
  {
    IndexOfFirst(Lower(s), p);
  }

  // ---------------------------------------------------------------------------
  // Whitespace

  function TrimStart(s: string): (r: string)
    ensures |r| <= |s| && r == s[|s| - |r|..]
    ensures r == [] || !IsSpace(r[0])
  {
    if s != [] && IsSpace(s[0]) then TrimStart(s[1..]) else s
  }

  /** What `TrimStart` removes is whitespace. */
  lemma {:induction false} TrimStartRemovesSpace(s: string)
    ensures AllSpace(s[..|s| - |TrimStart(s)|])
  {
    if s != [] && IsSpace(s[0]) {
      TrimStartRemovesSpace(s[1..]);
      var k := |s| - |TrimStart(s)|;
      assert s[..k] == [s[0]] + s[1..][..k - 1];
    }
  }

  function TrimEnd(s: string): (r: string)
    ensures |r| <= |s| && r == s[..|r|]
    ensures r == [] || !IsSpace(r[|r| - 1])
  {
    if s != [] && IsSpace(s[|s| - 1]) then TrimEnd(s[..|s| - 1]) else s
  }

  /** What `TrimEnd` removes is whitespace. */
  lemma {:induction false} TrimEndRemovesSpace(s: string)
    ensures AllSpace(s[|TrimEnd(s)|..])
  {
    if s != [] && IsSpace(s[|s| - 1]) {
      var t := s[..|s| - 1];
      TrimEndRemovesSpace(t);
      var k := |TrimEnd(s)|;
      assert s[k..] == t[k..] + [s[|s| - 1]];
    }
  }

  /** `s.trim()`. */
  function Trim(s: string): (r: string)
    ensures |r| <= |s|
    ensures r == [] || (!IsSpace(r[0]) && !IsSpace(r[|r| - 1]))
  {
    TrimEnd(TrimStart(s))
  }

  lemma TrimPosition(s: string)
    ensures var k := |s| - |TrimStart(s)|;
      k + |Trim(s)| <= |s| && s[k..k + |Trim(s)|] == Trim(s)
  {
    var t := TrimStart(s);
    var k := |s| - |t|;
    assert t == s[k..];
    assert Trim(s) == t[..|Trim(s)|];
  }

  lemma TrimTrailing(s: string)
    ensures AllSpace(s[|s| - |TrimStart(s)| + |Trim(s)|..])
  {
    var t := TrimStart(s);
    var k := |s| - |t|;
    TrimEndRemovesSpace(t);
    assert s[k + |Trim(s)|..] == t[|Trim(s)|..];
  }

  /** The trimmed string sits in `s` just after the leading whitespace run, with only
      whitespace before and after it. */
  lemma TrimSpec(s: string)
    ensures var k := |s| - |TrimStart(s)|;
      && k + |Trim(s)| <= |s| && s[k..k + |Trim(s)|] == Trim(s)
      && AllSpace(s[..k]) && AllSpace(s[k + |Trim(s)|..])
  {
    TrimPosition(s);
    TrimStartRemovesSpace(s);
    TrimTrailing(s);
  }

  /** `s.trim()` is empty exactly when `s` is whitespace only. */
  lemma TrimEmptyIffAllSpace(s: string)
    ensures Trim(s) == [] <==> AllSpace(s)
  {
    if AllSpace(s) {
      assert TrimStart(s) == [];
    }
    if Trim(s) == [] {
      TrimSpec(s);
      var k := |s| - |TrimStart(s)|;
      forall i | 0 <= i < |s| ensures IsSpace(s[i]) {
        if i < k { assert s[i] == s[..k][i]; } else { assert s[i] == s[k..][i - k]; }
      }
    }
  }

  /** Drops the whitespace at the front of `s`. */
  function DropSpaces(s: string): (r: string)
    ensures |r| <= |s|
    ensures r == [] || !IsSpace(r[0])
  {
    if s != [] && IsSpace(s[0]) then DropSpaces(s[1..]) else s
  }

  /** `s.replace(/\s+/g, c)`: every maximal run of whitespace becomes the single character `c`. */
  function CollapseSpaces(s: string, c: char): (r: string)
    decreases |s|
  {
    if s == [] then []
    else if IsSpace(s[0]) then [c] + CollapseSpaces(DropSpaces(s[1..]), c)
    else [s[0]] + CollapseSpaces(s[1..], c)
  }

  /** No two neighbouring characters of `s` are both whitespace. */
  predicate NoDoubleSpace(s: string) {
    forall i :: 0 <= i < |s| - 1 ==> !IsSpace(s[i]) || !IsSpace(s[i + 1])
  }

  lemma {:induction false} CollapseStartsWith(s: string, c: char)
    requires s != [] && !IsSpace(s[0])
    ensures CollapseSpaces(s, c) != [] && CollapseSpaces(s, c)[0] == s[0]
  {
  }

  /** After collapsing, whitespace never comes twice in a row; and when the
      replacement is not whitespace, no whitespace is left at all. */
  lemma {:induction false} CollapseSpacesShape(s: string, c: char)
    ensures NoDoubleSpace(CollapseSpaces(s, c))
    ensures !IsSpace(c) ==> forall i :: 0 <= i < |CollapseSpaces(s, c)| ==> !IsSpace(CollapseSpaces(s, c)[i])
    decreases |s|
  {
    if s != [] {
      var r := CollapseSpaces(s, c);
      if IsSpace(s[0]) {
        var t := DropSpaces(s[1..]);
        CollapseSpacesShape(t, c);
        if t != [] { CollapseStartsWith(t, c); }
        assert r == [c] + CollapseSpaces(t, c);
      } else {
        CollapseSpacesShape(s[1..], c);
        if s[1..] != [] && !IsSpace(s[1]) { CollapseStartsWith(s[1..], c); }
        assert r == [s[0]] + CollapseSpaces(s[1..], c);
        if s[1..] != [] && IsSpace(s[1]) {
          assert CollapseSpaces(s[1..], c)[0] == c;
        }
      }
    }
  }

  lemma {:induction false} DropSpacesFilter(s: string, q: char -> bool)
    requires forall x :: IsSpace(x) ==> !q(x)
    ensures Seqs.Filter(DropSpaces(s), q) == Seqs.Filter(s, q)
    decreases |s|
  {
    if s != [] && IsSpace(s[0]) {
      DropSpacesFilter(s[1..], q);
      assert !q(s[0]);
      assert Seqs.Filter(s, q) == [] + Seqs.Filter(s[1..], q);
    }
  }

  /** Collapsing keeps every character that is neither whitespace nor the replacement,
      in order: filtering both sides by such a test gives the same sequence. */
  lemma {:induction false} CollapseSpacesKeeps(s: string, c: char, q: char -> bool)
    requires !q(c)
    requires forall x :: IsSpace(x) ==> !q(x)
    ensures Seqs.Filter(CollapseSpaces(s, c), q) == Seqs.Filter(s, q)
    decreases |s|
  {
    if s != [] {
      if IsSpace(s[0]) {
        var t := DropSpaces(s[1..]);
        CollapseSpacesKeeps(t, c, q);
        DropSpacesFilter(s[1..], q);
        Seqs.FilterConcat([c], CollapseSpaces(t, c), q);
      } else {
        CollapseSpacesKeeps(s[1..], c, q);
        Seqs.FilterConcat([s[0]], CollapseSpaces(s[1..], c), q);
      }
    }
  }

  lemma {:induction false} CollapseEndsWith(s: string, c: char)
    requires s != [] && !IsSpace(s[|s| - 1])
    ensures CollapseSpaces(s, c) != [] && CollapseSpaces(s, c)[|CollapseSpaces(s, c)| - 1] == s[|s| - 1]
    decreases |s|
  {
    if |s| > 1 {
      if IsSpace(s[0]) {
        var t := DropSpaces(s[1..]);
        DropSpacesKeepsLast(s[1..]);
        CollapseEndsWith(t, c);
      } else {
        CollapseEndsWith(s[1..], c);
      }
    }
  }

  lemma {:induction false} DropSpacesKeepsLast(s: string)
    requires s != [] && !IsSpace(s[|s| - 1])
    ensures DropSpaces(s) != [] && DropSpaces(s)[|DropSpaces(s)| - 1] == s[|s| - 1]
    decreases |s|
  {
    if IsSpace(s[0]) {
      DropSpacesKeepsLast(s[1..]);
    }
  }

  /** A string ending in whitespace collapses to one ending in the replacement. */
  lemma {:induction false} CollapseEndsWithReplacement(s: string, c: char)
    requires s != [] && IsSpace(s[|s| - 1])
    ensures CollapseSpaces(s, c) != [] && CollapseSpaces(s, c)[|CollapseSpaces(s, c)| - 1] == c
    decreases |s|
  {
    if IsSpace(s[0]) {
      var t := DropSpaces(s[1..]);
      if t != [] {
        DropSpacesEndsWithSpace(s[1..]);
        CollapseEndsWithReplacement(t, c);
      }
    } else {
      CollapseEndsWithReplacement(s[1..], c);
    }
  }

  lemma {:induction false} DropSpacesEndsWithSpace(s: string)
    requires s != [] && IsSpace(s[|s| - 1]) && DropSpaces(s) != []
    ensures IsSpace(DropSpaces(s)[|DropSpaces(s)| - 1])
    decreases |s|
  {
    if IsSpace(s[0]) {
      DropSpacesEndsWithSpace(s[1..]);
    }
  }

  /** The characters of `s` that are not whitespace, in order. */
  function NonSpace(s: string): string {
    Seqs.Filter(s, x => !IsSpace(x))
  }

  // ---------------------------------------------------------------------------
  // Decimal numbers

  predicate IsDigit(c: char) {
    '0' <= c <= '9'
  }

  function DigitChar(d: nat): (c: char)
    requires d < 10
    ensures IsDigit(c) && c as int - '0' as int == d
  {
    ('0' as int + d) as char
  }

  /** `String(n)` for a non-negative integer: no leading zero. */
  function NatToString(n: nat): (r: string)
    ensures r != [] && forall i :: 0 <= i < |r| ==> IsDigit(r[i])
    ensures r[0] == '0' ==> n == 0
  {
    if n < 10 then [DigitChar(n)] else NatToString(n / 10) + [DigitChar(n % 10)]
  }

  /** `String(i)` for an integer. */
  function IntToString(i: int): string {
    if i < 0 then "-" + NatToString(-i) else NatToString(i)
  }

  function DigitsValue(s: string): nat
    requires forall i :: 0 <= i < |s| ==> IsDigit(s[i])
  {
    if s == [] then 0
    else
      assert IsDigit(s[|s| - 1]);
      DigitsValue(s[..|s| - 1]) * 10 + (s[|s| - 1] as int - '0' as int)
  }

  predicate AllDigits(s: string) {
    s != [] && forall i :: 0 <= i < |s| ==> IsDigit(s[i])
  }

  /** `Number(s)` and `parseInt(s)` on an optionally signed decimal numeral;
      every other string is `NaN`, here `None`. */
  function ParseInteger(s: string): (r: Option<int>)
    ensures r.Some? <==> AllDigits(s) || (|s| > 1 && s[0] in "+-" && AllDigits(s[1..]))
    ensures r.Some? && s[0] != '-' ==> r.value >= 0
    ensures r.Some? && s[0] == '-' ==> r.value <= 0
  {
    if AllDigits(s) then Some(DigitsValue(s) as int)
    else if |s| > 1 && s[0] == '-' && AllDigits(s[1..]) then Some(-(DigitsValue(s[1..]) as int))
    else if |s| > 1 && s[0] == '+' && AllDigits(s[1..]) then Some(DigitsValue(s[1..]) as int)
    else None
  }

  /** `Number(s)`: surrounding whitespace is ignored and a blank string is 0. */
  function JsNumber(s: string): Option<int> {
    if AllSpace(s) then Some(0) else ParseInteger(Trim(s))
  }

  lemma {:induction false} NatToStringValue(n: nat)
    ensures DigitsValue(NatToString(n)) == n
  {
    if n >= 10 {
      NatToStringValue(n / 10);
      var s := NatToString(n);
      assert s[..|s| - 1] == NatToString(n / 10);
    }
  }

  /** Reading back a printed integer gives the integer. */
  lemma IntToStringRoundTrip(i: int)
    ensures ParseInteger(IntToString(i)) == Some(i)
  {
    if i < 0 {
      var n := NatToString(-i);
      var s := "-" + n;
      assert s == IntToString(i);
      assert s[1..] == n;
      assert !AllDigits(s) by {
        assert !IsDigit(s[0]);
      }
      NatToStringValue(-i);
      assert ParseInteger(s) == Some(-(DigitsValue(n) as int));
    } else {
      NatToStringValue(i);
      assert AllDigits(NatToString(i));
    }
  }
  /** A string with no whitespace at either end is its own trim. */
  lemma TrimUntouched(s: string)
    requires s != [] && !IsSpace(s[0]) && !IsSpace(s[|s| - 1])
    ensures Trim(s) == s && !AllSpace(s)
  {
    assert TrimStart(s) == s;
  }

  /** `Number(String(i)) == i`. */
  lemma JsNumberReadsPrinted(i: int)
    ensures JsNumber(IntToString(i)) == Some(i)
  {
    IntToStringRoundTrip(i);
    var s := IntToString(i);
    var n := NatToString(if i < 0 then -i else i);
    assert IsDigit(n[|n| - 1]);
    if i < 0 {
      assert s == "-" + n && s[|s| - 1] == n[|n| - 1];
    } else {
      assert IsDigit(n[0]);
    }
    TrimUntouched(s);
  }


}
