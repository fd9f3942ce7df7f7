/**
 * String primitives shared by the server variants and the browser client:
 * per-character case mapping, whitespace stripping, substring search and
 * splitting. Python's `str.lower`, `str.upper`, `str.title`, `str.strip`,
 * `in`, `str.split` and JavaScript's `toLowerCase` are all modelled here.
 */
module Text {
  import opened Wrappers

  // ---------------------------------------------------------------------
  // Case mapping (ASCII and the Latin-1 supplement)
  // ---------------------------------------------------------------------

  function LowerChar(c: char): char {
    if 'A' <= c <= 'Z' then (c as int + 32) as char
    else if 'À' <= c <= 'Þ' && c != '×' then (c as int + 32) as char
    else c
  }

  function UpperChar(c: char): char {
    if 'a' <= c <= 'z' then (c as int - 32) as char
    else if 'à' <= c <= 'þ' && c != '÷' then (c as int - 32) as char
    else if c == 'ÿ' then 'Ÿ'
    else if c == 'µ' then 'Μ'
    else c
  }

  /** A letter that has an upper- and a lower-case form. */
  predicate IsCased(c: char) {
    LowerChar(c) != c || UpperChar(c) != c
  }

  function Lower(s: string): (r: string)
    ensures |r| == |s|
    ensures forall i :: 0 <= i < |s| ==> r[i] == LowerChar(s[i])
  {
    seq(|s|, i requires 0 <= i < |s| => LowerChar(s[i]))
  }

  function Upper(s: string): (r: string)
    ensures |r| == |s|
    ensures forall i :: 0 <= i < |s| ==> r[i] == UpperChar(s[i])
  {
    seq(|s|, i requires 0 <= i < |s| => UpperChar(s[i]))
  }

  /** Python's `str.title()`: the first cased letter of every run of cased letters
      is upper-cased, the other cased letters are lower-cased. */
  function TitleCase(s: string): (r: string)
    ensures |r| == |s|
  {
    TitleFrom(s, false)
  }

  function TitleFrom(s: string, previousCased: bool): (r: string)
    ensures |r| == |s|
  {
    if s == [] then []
    else
      var c := if previousCased then LowerChar(s[0]) else UpperChar(s[0]);
      [c] + TitleFrom(s[1..], IsCased(c))
  }

  /** No character upper-cases to a lower-case ASCII letter. */
  lemma UpperCharNotLowerAscii(c: char)
    ensures !('a' <= UpperChar(c) <= 'z')
  {
  }

  /** No character lower-cases to an upper-case ASCII letter. */
  lemma LowerCharNotUpperAscii(c: char)
    ensures !('A' <= LowerChar(c) <= 'Z')
  {
  }

  lemma {:induction false} LowerIdempotent(s: string)
    ensures Lower(Lower(s)) == Lower(s)
  {
    forall i | 0 <= i < |s|
      ensures Lower(Lower(s))[i] == Lower(s)[i]
    {
      LowerCharNotUpperAscii(s[i]);
    }
  }

  // ---------------------------------------------------------------------
  // Whitespace (the characters for which Python's `str.isspace()` holds)
  // ---------------------------------------------------------------------

  predicate IsSpace(c: char) {
    || c == ' ' || c == '\t' || c == '\n' || c == '\r' || c == '\U{000B}' || c == '\U{000C}'
    || ('\U{001C}' <= c <= '\U{001F}') || c == '\U{0085}' || c == '\U{00A0}' || c == '\U{1680}'
    || ('\U{2000}' <= c <= '\U{200A}') || c == '\U{2028}' || c == '\U{2029}' || c == '\U{202F}'
    || c == '\U{205F}' || c == '\U{3000}'
  }

  function TrimStart(s: string): string {
    if |s| > 0 && IsSpace(s[0]) then TrimStart(s[1..]) else s
  }

  /** `TrimStart` drops exactly the leading run of whitespace. Kept apart from the function,
      like `FindSpec`, so that its quantifiers are brought in only on demand. */
  lemma {:induction false} TrimStartSpec(s: string)
    ensures var r := TrimStart(s);
      && |r| <= |s| && r == s[|s| - |r|..]
      && (r == [] || !IsSpace(r[0]))
      && forall i :: 0 <= i < |s| - |r| ==> IsSpace(s[i])
  {
    if |s| > 0 && IsSpace(s[0]) {
      var t := s[1..];
      TrimStartSpec(t);
      var r := TrimStart(t);
      assert t[|t| - |r|..] == s[|s| - |r|..];
      forall i | 0 <= i < |s| - |r| ensures IsSpace(s[i]) {
        if i > 0 {
          assert s[i] == t[i - 1];
        }
      }
    }
  }

  function TrimEnd(s: string): string {
    if |s| > 0 && IsSpace(s[|s| - 1]) then TrimEnd(s[..|s| - 1]) else s
  }

  /** `TrimEnd` drops exactly the trailing run of whitespace. */
  lemma {:induction false} TrimEndSpec(s: string)
    ensures var r := TrimEnd(s);
      && |r| <= |s| && r == s[..|r|]
      && (r == [] || !IsSpace(r[|r| - 1]))
      && forall i :: |r| <= i < |s| ==> IsSpace(s[i])
  {
    if |s| > 0 && IsSpace(s[|s| - 1]) {
      var t := s[..|s| - 1];
      TrimEndSpec(t);
      var r := TrimEnd(t);
      assert t[..|r|] == s[..|r|];
      forall i | |r| <= i < |s| ensures IsSpace(s[i]) {
        if i < |s| - 1 {
          assert s[i] == t[i];
        }
      }
    }
  }

  /** Python's `str.strip()` with no argument. */
  function Strip(s: string): string {
    TrimEnd(TrimStart(s))
  }

  /** `strip()` keeps a contiguous part of its input with no whitespace at either end, and
      drops only whitespace around it. */
  lemma StripSpec(s: string)
    ensures var r := Strip(s);
      && (r == [] || (!IsSpace(r[0]) && !IsSpace(r[|r| - 1])))
      && exists i: nat :: StartsAt(s, r, i)
           && (forall k :: 0 <= k < i ==> IsSpace(s[k]))
           && (forall k :: i + |r| <= k < |s| ==> IsSpace(s[k]))
  {
    var t := TrimStart(s);
    TrimStartSpec(s);
    TrimEndSpec(t);
    var r := TrimEnd(t);
    assert r == [] || r[0] == t[0];
    assert StartsAt(s, r, |s| - |t|);
    forall k | |s| - |t| + |r| <= k < |s| ensures IsSpace(s[k]) {
      assert s[k] == t[k - (|s| - |t|)];
    }
  }

  /** A string with no whitespace at either end is its own `strip()`. */
  lemma StripUnchanged(s: string)
    requires s != [] && !IsSpace(s[0]) && !IsSpace(s[|s| - 1])
    ensures Strip(s) == s
  {
    assert TrimStart(s) == s;
  }

  /** Upper-casing neither makes nor unmakes whitespace. */
  lemma UpperCharKeepsSpace(c: char)
    ensures IsSpace(UpperChar(c)) <==> IsSpace(c)
  {
  }

  lemma {:induction false} UpperTrimStart(s: string)
    ensures TrimStart(Upper(s)) == Upper(TrimStart(s))
  {
    if |s| > 0 {
      UpperCharKeepsSpace(s[0]);
      if IsSpace(s[0]) {
        assert Upper(s)[1..] == Upper(s[1..]);
        UpperTrimStart(s[1..]);
      }
    }
  }

  lemma {:induction false} UpperTrimEnd(s: string)
    ensures TrimEnd(Upper(s)) == Upper(TrimEnd(s))
  {
    if |s| > 0 {
      UpperCharKeepsSpace(s[|s| - 1]);
      if IsSpace(s[|s| - 1]) {
        assert Upper(s)[..|s| - 1] == Upper(s[..|s| - 1]);
        UpperTrimEnd(s[..|s| - 1]);
      }
    }
  }

  /** `s.upper().strip() == s.strip().upper()`. */
  lemma UpperStripCommute(s: string)
    ensures Strip(Upper(s)) == Upper(Strip(s))
  {
    UpperTrimStart(s);
    UpperTrimEnd(TrimStart(s));
  }

  lemma UpperIdempotent(s: string)
    ensures Upper(Upper(s)) == Upper(s)
  {
  }

  // ---------------------------------------------------------------------
  // Substring search
  // ---------------------------------------------------------------------

  /** `pat` occurs in `s` at index `i`. */
  predicate StartsAt(s: string, pat: string, i: nat) {
    i + |pat| <= |s| && s[i..i + |pat|] == pat
  }

  /** The least index at or after `from` where `pat` occurs (`str.find`). Its meaning is
      stated by `FindSpec`, kept apart so that the search is unfolded only on demand. */
  function Find(s: string, pat: string, from: nat): (r: Option<nat>)
    ensures r.Some? ==> from <= r.value && r.value + |pat| <= |s|
    decreases |s| - from
  {
    if from + |pat| > |s| then None
    else if StartsAt(s, pat, from) then Some(from)
    else Find(s, pat, from + 1)
  }

  /** `Find` returns the leftmost occurrence at or after `from`, and `None` only when there is none. */
  lemma {:induction false} FindSpec(s: string, pat: string, from: nat)
    ensures var r := Find(s, pat, from);
      && (r.Some? ==> from <= r.value && StartsAt(s, pat, r.value))
      && (r.Some? ==> forall k :: from <= k < r.value ==> !StartsAt(s, pat, k))
      && (r.None? ==> forall k :: from <= k ==> !StartsAt(s, pat, k))
    decreases |s| - from
  {
    if from + |pat| <= |s| && !StartsAt(s, pat, from) {
      FindSpec(s, pat, from + 1);
    }
  }

  /** Python's `pat in s`. */
  predicate Contains(s: string, pat: string) {
    Find(s, pat, 0).Some?
  }

  lemma ContainsIff(s: string, pat: string)
    ensures Contains(s, pat) <==> exists i: nat :: StartsAt(s, pat, i)
  {
    FindSpec(s, pat, 0);
  }

  lemma ContainsWitness(s: string, pat: string, i: nat)
    requires StartsAt(s, pat, i)
    ensures Contains(s, pat)
  {
    FindSpec(s, pat, 0);
  }

  /** An occurrence of an occurrence is an occurrence. */
  lemma {:induction false} ContainsTrans(s: string, p: string, q: string)
    requires Contains(s, p) && Contains(p, q)
    ensures Contains(s, q)
  {
    FindSpec(s, p, 0);
    FindSpec(p, q, 0);
    var i := Find(s, p, 0).value;
    var j := Find(p, q, 0).value;
    assert s[i..i + |p|] == p;
    assert p[j..j + |q|] == q;
    forall k | 0 <= k < |q| ensures s[i + j + k] == q[k] {
      assert s[i..i + |p|][j + k] == s[i + j + k];
      assert p[j..j + |q|][k] == p[j + k];
    }
    assert s[i + j..i + j + |q|] == q;
    ContainsWitness(s, q, i + j);
  }

  lemma InfixAt(a: string, x: string, b: string)
    ensures StartsAt(a + x + b, x, |a|)
  {
    assert (a + x + b)[|a|..|a| + |x|] == x;
  }

  /** A string contains each of its middle parts. */
  lemma ContainsInfix(a: string, x: string, b: string)
    ensures Contains(a + x + b, x)
  {
    InfixAt(a, x, b);
    ContainsWitness(a + x + b, x, |a|);
  }

  /** Text put around a string keeps every occurrence in it. */
  lemma {:induction false} ContainsExtended(p: string, s: string, q: string, x: string)
    requires Contains(s, x)
    ensures Contains(p + s + q, x)
  {
    FindSpec(s, x, 0);
    var i := Find(s, x, 0).value;
    assert (p + s + q)[|p| + i..|p| + i + |x|] == s[i..i + |x|];
    ContainsWitness(p + s + q, x, |p| + i);
  }

  /** Some pattern of `pats` occurs in `s`. */
  predicate ContainsAny(s: string, pats: seq<string>) {
    |pats| > 0 && (Contains(s, pats[0]) || ContainsAny(s, pats[1..]))
  }

  lemma {:induction false} ContainsAnyIff(s: string, pats: seq<string>)
    ensures ContainsAny(s, pats) <==> exists k :: 0 <= k < |pats| && Contains(s, pats[k])
  {
    if |pats| > 0 {
      ContainsAnyIff(s, pats[1..]);
      if exists k :: 0 <= k < |pats| && Contains(s, pats[k]) {
        var k :| 0 <= k < |pats| && Contains(s, pats[k]);
        if k > 0 {
          assert pats[1..][k - 1] == pats[k];
        }
      }
    }
  }

  /** No two neighbouring characters of `s`, from index `i` on, lower-case to `a` and then `b`.
      Written as a walk along `s` so that it can be evaluated on a short literal. */
  predicate NoLowerPair(s: string, a: char, b: char, i: nat)
    decreases |s| - i
  {
    i + 1 >= |s| || (!(LowerChar(s[i]) == a && LowerChar(s[i + 1]) == b) && NoLowerPair(s, a, b, i + 1))
  }

  lemma {:induction false} NoLowerPairAt(s: string, a: char, b: char, i: nat, k: nat)
    requires NoLowerPair(s, a, b, i) && i <= k && k + 1 < |s|
    ensures !(LowerChar(s[k]) == a && LowerChar(s[k + 1]) == b)
    decreases k - i
  {
    if i < k {
      NoLowerPairAt(s, a, b, i + 1, k);
    }
  }

  lemma {:induction false} NoLowerPairFrom(s: string, a: char, b: char, i: nat)
    requires forall k :: i <= k && k + 1 < |s| ==> !(LowerChar(s[k]) == a && LowerChar(s[k + 1]) == b)
    ensures NoLowerPair(s, a, b, i)
    decreases |s| - i
  {
    if i + 1 < |s| {
      NoLowerPairFrom(s, a, b, i + 1);
    }
  }

  /** Two strings without the pair, joined where the pair does not form, are without it. */
  lemma NoLowerPairConcat(x: string, y: string, a: char, b: char)
    requires NoLowerPair(x, a, b, 0) && NoLowerPair(y, a, b, 0)
    requires LowerChar(' ') != b && LowerChar('\'') != b && LowerChar('\'') != a
    requires |x| > 0 && |y| > 0 && (y[0] == ' ' || y[0] == '\'' || x[|x| - 1] == '\'')
    ensures NoLowerPair(x + y, a, b, 0)
  {
    var s := x + y;
    forall k | 0 <= k && k + 1 < |s| ensures !(LowerChar(s[k]) == a && LowerChar(s[k + 1]) == b) {
      if k + 1 < |x| {
        NoLowerPairAt(x, a, b, 0, k);
      } else if k >= |x| {
        NoLowerPairAt(y, a, b, 0, k - |x|);
      }
    }
    NoLowerPairFrom(s, a, b, 0);
  }

  /** A pattern holding the pair `a`, `b` cannot occur in the lower-cased form of a string
      without it. */
  lemma NoLowerPairNotContained(s: string, pat: string, j: nat)
    requires j + 1 < |pat| && NoLowerPair(s, pat[j], pat[j + 1], 0)
    ensures !Contains(Lower(s), pat)
  {
    if Contains(Lower(s), pat) {
      FindSpec(Lower(s), pat, 0);
      var i := Find(Lower(s), pat, 0).value;
      assert Lower(s)[i..i + |pat|][j] == pat[j] && Lower(s)[i..i + |pat|][j + 1] == pat[j + 1];
      NoLowerPairAt(s, pat[j], pat[j + 1], 0, i + j);
    }
  }

  /** The last index of character `c` in `s`. */
  function FindLast(s: string, c: char): (r: Option<nat>)
    ensures r.Some? ==> r.value < |s|
  {
    if s == [] then None
    else if s[|s| - 1] == c then Some(|s| - 1)
    else FindLast(s[..|s| - 1], c)
  }

  /** `FindLast` finds the last occurrence, and `None` only when there is none. */
  lemma {:induction false} FindLastSpec(s: string, c: char)
    ensures var r := FindLast(s, c);
      && (r.Some? ==> s[r.value] == c && forall k :: r.value < k < |s| ==> s[k] != c)
      && (r.None? ==> forall k :: 0 <= k < |s| ==> s[k] != c)
  {
    if s != [] && s[|s| - 1] != c {
      FindLastSpec(s[..|s| - 1], c);
      var r := FindLast(s, c);
      assert forall k :: 0 <= k < |s| - 1 ==> s[..|s| - 1][k] == s[k];
    }
  }

  function StartsWith(s: string, prefix: string): bool {
    StartsAt(s, prefix, 0)
  }

  function EndsWith(s: string, suffix: string): bool {
    |suffix| <= |s| && s[|s| - |suffix|..] == suffix
  }

  // ---------------------------------------------------------------------
  // Splitting
  // ---------------------------------------------------------------------

  /** Python's `s.split(sep)` for a one-character separator. */
  function Split(s: string, sep: char): (r: seq<string>)
    ensures |r| >= 1
    ensures forall k :: 0 <= k < |r| ==> sep !in r[k]
  {
    FindSpec(s, [sep], 0);
    match Find(s, [sep], 0)
    case None =>
      assert forall k :: 0 <= k < |s| ==> s[k] != sep by {
        forall k | 0 <= k < |s| ensures s[k] != sep {
          assert !StartsAt(s, [sep], k);
          assert s[k..k + 1] == [s[k]];
        }
      }
      [s]
    case Some(i) =>
      assert forall k :: 0 <= k < i ==> s[k] != sep by {
        forall k | 0 <= k < i ensures s[k] != sep {
          assert !StartsAt(s, [sep], k);
          assert s[k..k + 1] == [s[k]];
        }
      }
      [s[..i]] + Split(s[i + 1..], sep)
  }

  /** `sep.join(parts)`, the inverse of `Split`. */
  function Join(parts: seq<string>, sep: char): string {
    if |parts| == 0 then ""
    else if |parts| == 1 then parts[0]
    else parts[0] + [sep] + Join(parts[1..], sep)
  }

  lemma {:induction false} SplitJoin(s: string, sep: char)
    ensures Join(Split(s, sep), sep) == s
    decreases |s|
  {
    FindSpec(s, [sep], 0);
    match Find(s, [sep], 0)
    case None =>
    case Some(i) =>
      assert s[i..i + 1] == [sep];
      SplitJoin(s[i + 1..], sep);
      assert s == s[..i] + [sep] + s[i + 1..];
  }
}
