/** String helpers that the pages use through JavaScript built-ins:
    whitespace and `trim`, ASCII `toLowerCase`, `includes`, `startsWith`,
    `replace(/\s+/g, "-")`, `Number.prototype.toString`, `padStart` and the
    relational operators on strings. */
module Text {

  /** The characters JavaScript's `\s` class and `String.prototype.trim` treat
      as white space: the WhiteSpace and LineTerminator productions of
      ECMAScript (TAB, VT, FF, SP, NBSP, ZWNBSP, the Space_Separator
      characters, LF, CR, LS and PS). */
  predicate IsSpace(c: char)
  {
    c == '\t' || c == '\n' || c == '\U{B}' || c == '\U{C}' || c == '\r' || c == ' '
    || c == '\U{A0}' || c == '\U{1680}' || ('\U{2000}' <= c <= '\U{200A}')
    || c == '\U{2028}' || c == '\U{2029}' || c == '\U{202F}' || c == '\U{205F}'
    || c == '\U{3000}' || c == '\U{FEFF}'
  }

  predicate AllSpace(s: string)
  {
    forall i :: 0 <= i < |s| ==> IsSpace(s[i])
  }

  predicate NoSpace(s: string)
  {
    forall i :: 0 <= i < |s| ==> !IsSpace(s[i])
  }

  // ---------------------------------------------------------------- trim

  /** The first index at or after `k` that does not hold white space
      (`|s|` when there is none). */
  function SpaceEnd(s: string, k: int): (r: int)
    requires 0 <= k <= |s|
    ensures k <= r <= |s|
    ensures r < |s| ==> !IsSpace(s[r])
    decreases |s| - k
  {
    if k == |s| || !IsSpace(s[k]) then k else SpaceEnd(s, k + 1)
  }

  /** The last index at or before `k` that is not preceded by white space
      (0 when there is none). */
  function SpaceStart(s: string, k: int): (r: int)
    requires 0 <= k <= |s|
    ensures 0 <= r <= k
    ensures r > 0 ==> !IsSpace(s[r - 1])
    decreases k
  {
    if k == 0 || !IsSpace(s[k - 1]) then k else SpaceStart(s, k - 1)
  }

  /** Everything `SpaceEnd` skips is white space. */
  lemma {:induction false} SpaceEndSkips(s: string, k: int, m: int)
    requires 0 <= k <= |s| && k <= m < SpaceEnd(s, k)
    ensures IsSpace(s[m])
    decreases |s| - k
  {
    if m > k {
      SpaceEndSkips(s, k + 1, m);
    }
  }

  /** Everything `SpaceStart` skips is white space. */
  lemma {:induction false} SpaceStartSkips(s: string, k: int, m: int)
    requires 0 <= k <= |s| && SpaceStart(s, k) <= m < k
    ensures IsSpace(s[m])
    decreases k
  {
    if m < k - 1 {
      SpaceStartSkips(s, k - 1, m);
    }
  }

  /** `String.prototype.trimStart`. */
  function TrimStart(s: string): string
  {
    s[SpaceEnd(s, 0)..]
  }

  /** `String.prototype.trimEnd`. */
  function TrimEnd(s: string): string
  {
    s[..SpaceStart(s, |s|)]
  }

  /** `String.prototype.trim`. */
  function Trim(s: string): string
  {
    TrimEnd(TrimStart(s))
  }

  /** Trim removes white space from both ends and nothing else: with `i`
      the length of the cut-off head and `j` where the tail begins, the
      result is the slice between them and everything cut off is white
      space. */
  lemma TrimIsSlice(s: string, i: int, j: int)
    requires i == |s| - |TrimStart(s)| && j == i + |Trim(s)|
    ensures 0 <= i <= j <= |s| && Trim(s) == s[i..j]
    ensures AllSpace(s[..i]) && AllSpace(s[j..])
  {
    var t := TrimStart(s);
    assert i == SpaceEnd(s, 0);
    assert j - i == SpaceStart(t, |t|);
    forall m | 0 <= m < i
      ensures IsSpace(s[..i][m])
    {
      SpaceEndSkips(s, 0, m);
    }
    forall m | 0 <= m < |s| - j
      ensures IsSpace(s[j..][m])
    {
      SpaceStartSkips(t, |t|, j - i + m);
    }
  }

  /** The trimmed text neither starts nor ends with white space. */
  lemma TrimEnds(s: string)
    ensures Trim(s) == [] || (!IsSpace(Trim(s)[0]) && !IsSpace(Trim(s)[|Trim(s)| - 1]))
  {
    var t := TrimStart(s);
    var r := TrimEnd(t);
    if r != [] {
      assert r[0] == t[0] == s[SpaceEnd(s, 0)];
    }
  }

  /** `!s.trim()` holds exactly for the empty and the all-white-space strings. */
  lemma TrimEmptyIffAllSpace(s: string)
    ensures Trim(s) == [] <==> AllSpace(s)
  {
    var i := SpaceEnd(s, 0);
    var t := TrimStart(s);
    if Trim(s) == [] {
      forall m | 0 <= m < |s|
        ensures IsSpace(s[m])
      {
        if m < i {
          SpaceEndSkips(s, 0, m);
        } else {
          assert t[m - i] == s[m];
          SpaceStartSkips(t, |t|, m - i);
        }
      }
    } else {
      assert !IsSpace(s[i]);
    }
  }

  // ---------------------------------------------------------------- case

  /** `toLowerCase`, restricted to ASCII letters. */
  function ToLowerChar(c: char): char
  {
    if 'A' <= c <= 'Z' then (c as int + 32) as char else c
  }

  function ToLower(s: string): (r: string)
    ensures |r| == |s|
    ensures forall i :: 0 <= i < |s| ==> r[i] == ToLowerChar(s[i])
  {
    if s == [] then [] else [ToLowerChar(s[0])] + ToLower(s[1..])
  }

  lemma ToLowerIdempotent(s: string)
    ensures ToLower(ToLower(s)) == ToLower(s)
  {
  }

  lemma ToLowerAppend(a: string, b: string)
    ensures ToLower(a + b) == ToLower(a) + ToLower(b)
  {
  }

  // ------------------------------------------------------- includes, prefix

  /** The declarative meaning of `s.includes(sub)`. */
  ghost predicate OccursAt(s: string, sub: string, i: int)
  {
    0 <= i && i + |sub| <= |s| && s[i..i + |sub|] == sub
  }

  /** `String.prototype.includes`, scanning left to right. */
  function Includes(s: string, sub: string): (r: bool)
    ensures r <==> exists i :: OccursAt(s, sub, i)
    decreases |s|
  {
    if |sub| > |s| then false
    else if s[..|sub|] == sub then
      assert OccursAt(s, sub, 0);
      true
    else
      OccursShift(s, sub);
      Includes(s[1..], sub)
  }

  /** An occurrence in the tail is an occurrence one position further on. */
  lemma OccursShift(s: string, sub: string)
    requires |s| >= 1 && !OccursAt(s, sub, 0)
    ensures (exists i :: OccursAt(s[1..], sub, i)) <==> (exists i :: OccursAt(s, sub, i))
  {
    if i :| OccursAt(s[1..], sub, i) {
      assert s[1..][i..i + |sub|] == s[i + 1..i + 1 + |sub|];
      assert OccursAt(s, sub, i + 1);
    }
    if i :| OccursAt(s, sub, i) {
      assert s[1..][i - 1..i - 1 + |sub|] == s[i..i + |sub|];
      assert OccursAt(s[1..], sub, i - 1);
    }
  }

  /** `String.prototype.startsWith`. */
  predicate StartsWith(s: string, prefix: string)
  {
    |prefix| <= |s| && s[..|prefix|] == prefix
  }

  // ------------------------------------------- replace(/\s+/g, "-")

  /** `s.replace(/\s+/g, "-")`: every maximal run of white space becomes one
      hyphen. `inRun` says that the character before `s` was white space
      that has already been replaced. */
  function ReplaceRunsFrom(s: string, inRun: bool): (r: string)
    ensures NoSpace(r)
    ensures |r| <= |s|
  {
    if s == [] then []
    else if IsSpace(s[0]) then
      (if inRun then [] else "-") + ReplaceRunsFrom(s[1..], true)
    else [s[0]] + ReplaceRunsFrom(s[1..], false)
  }

  function ReplaceSpaceRuns(s: string): (r: string)
  {
    ReplaceRunsFrom(s, false)
  }

  /** A string without white space is left untouched. */
  lemma {:induction false} ReplaceSpaceRunsNoSpace(s: string, inRun: bool)
    requires NoSpace(s)
    ensures ReplaceRunsFrom(s, inRun) == s
  {
    if s != [] {
      ReplaceSpaceRunsNoSpace(s[1..], false);
    }
  }

  /** A white-space run that continues one already replaced adds nothing. */
  lemma {:induction false} ReplaceRunContinues(w: string, b: string)
    requires AllSpace(w)
    ensures ReplaceRunsFrom(w + b, true) == ReplaceRunsFrom(b, true)
  {
    if w != [] {
      assert (w + b)[0] == w[0] && (w + b)[1..] == w[1..] + b;
      ReplaceRunContinues(w[1..], b);
    } else {
      assert w + b == b;
    }
  }

  /** The run structure: a word, then a non-empty white-space run, then a
      rest that starts with a non-space character, becomes the word, one
      hyphen and the replaced rest. */
  lemma {:induction false} ReplaceSpaceRunsSplit(a: string, w: string, b: string)
    requires NoSpace(a) && AllSpace(w) && w != []
    requires b == [] || !IsSpace(b[0])
    ensures ReplaceSpaceRuns(a + w + b) == a + "-" + ReplaceSpaceRuns(b)
  {
    if a == [] {
      assert a + w + b == w + b;
      assert (w + b)[0] == w[0] && (w + b)[1..] == w[1..] + b;
      ReplaceRunContinues(w[1..], b);
      if b != [] {
        assert ReplaceRunsFrom(b, true) == [b[0]] + ReplaceRunsFrom(b[1..], false);
      }
    } else {
      assert (a + w + b)[0] == a[0] && (a + w + b)[1..] == a[1..] + w + b;
      ReplaceSpaceRunsSplit(a[1..], w, b);
    }
  }

  /** `s.replace(/\s+/g, "-").toLowerCase()`: the file-name slug the pages
      download under. */
  function Slug(s: string): string
  {
    ToLower(ReplaceSpaceRuns(s))
  }

  lemma ToLowerNoSpace(s: string)
    requires NoSpace(s)
    ensures NoSpace(ToLower(s))
  {
    forall i | 0 <= i < |s| ensures !IsSpace(ToLower(s)[i]) {
      assert !IsSpace(s[i]);
    }
  }

  lemma NoSpaceAppend(a: string, b: string)
    requires NoSpace(a) && NoSpace(b)
    ensures NoSpace(a + b)
  {
    forall i | 0 <= i < |a + b| ensures !IsSpace((a + b)[i]) {
      if i < |a| { assert (a + b)[i] == a[i]; } else { assert (a + b)[i] == b[i - |a|]; }
    }
  }

  /** A slug has no white space, and a string without white space is only
      lower-cased. */
  lemma SlugShape(s: string)
    ensures NoSpace(Slug(s))
    ensures NoSpace(s) ==> Slug(s) == ToLower(s)
  {
    ToLowerNoSpace(ReplaceSpaceRuns(s));
    if NoSpace(s) {
      ReplaceSpaceRunsNoSpace(s, false);
    }
  }

  /** A white-space run between a word and the rest becomes a single
      hyphen in the slug. */
  lemma SlugRun(a: string, w: string, b: string)
    requires NoSpace(a) && AllSpace(w) && w != []
    requires b == [] || !IsSpace(b[0])
    ensures Slug(a + w + b) == ToLower(a) + "-" + Slug(b)
  {
    ReplaceSpaceRunsSplit(a, w, b);
    ToLowerAppend(a, "-");
    ToLowerAppend(a + "-", ReplaceSpaceRuns(b));
    assert ToLower("-") == "-";
  }

  // ------------------------------------------------------- decimal numbers

  predicate IsDigit(c: char)
  {
    '0' <= c <= '9'
  }

  predicate AllDigits(s: string)
  {
    forall i :: 0 <= i < |s| ==> IsDigit(s[i])
  }

  function DigitChar(d: nat): (c: char)
    requires d < 10
    ensures IsDigit(c)
  {
    ('0' as int + d) as char
  }

  function DigitValue(c: char): (d: nat)
    requires IsDigit(c)
    ensures d < 10
  {
    c as int - '0' as int
  }

  /** `Number.prototype.toString()` on a non-negative integer: decimal digits
      without leading zeros. */
  function NatToString(n: nat): (s: string)
    ensures 1 <= |s| && AllDigits(s)
    ensures s[0] == '0' ==> n == 0
  {
    if n < 10 then [DigitChar(n)] else NatToString(n / 10) + [DigitChar(n % 10)]
  }

  /** The decimal forms of two- and three-digit numbers. */
  lemma NatToStringTwo(n: nat)
    requires 10 <= n < 100
    ensures NatToString(n) == [DigitChar(n / 10), DigitChar(n % 10)]
  {
  }

  lemma NatToStringThree(n: nat)
    requires 100 <= n < 1000
    ensures NatToString(n) == [DigitChar(n / 100), DigitChar(n / 10 % 10), DigitChar(n % 10)]
  {
    NatToStringTwo(n / 10);
  }

  /** The value of a string of decimal digits (leading zeros allowed). */
  function ParseDigits(s: string): nat
    requires AllDigits(s)
  {
    if s == [] then 0 else 10 * ParseDigits(s[..|s| - 1]) + DigitValue(s[|s| - 1])
  }

  /** Reading a number's decimal form gives back the number. */
  lemma {:induction false} ParseNatToString(n: nat)
    ensures ParseDigits(NatToString(n)) == n
  {
    if n >= 10 {
      var s := NatToString(n);
      assert s[..|s| - 1] == NatToString(n / 10);
      ParseNatToString(n / 10);
    }
  }

  /** Distinct numbers have distinct decimal forms. */
  lemma NatToStringInjective(m: nat, n: nat)
    requires NatToString(m) == NatToString(n)
    ensures m == n
  {
    ParseNatToString(m);
    ParseNatToString(n);
  }

  /** Leading zeros do not change the value of a digit string. */
  lemma {:induction false} ParseDigitsLeadingZero(s: string)
    requires AllDigits(s)
    ensures ParseDigits("0" + s) == ParseDigits(s)
  {
    if s != [] {
      assert ("0" + s)[..|"0" + s| - 1] == "0" + s[..|s| - 1];
      ParseDigitsLeadingZero(s[..|s| - 1]);
    }
  }

  /** `padStart(2, "0")`. */
  function PadStart2(s: string): (r: string)
    ensures |r| == if |s| < 2 then 2 else |s|
  {
    if |s| == 0 then "00" else if |s| == 1 then "0" + s else s
  }

  /** The padding is zeros in front of the text, up to two characters. */
  lemma PadStart2Zeros(s: string)
    ensures var r := PadStart2(s);
      && r[|r| - |s|..] == s
      && forall i :: 0 <= i < |r| - |s| ==> r[i] == '0'
  {
  }

  // ------------------------------------------------ string comparison

  /** `a <= b` on two strings: lexicographic comparison of the characters'
      code points, a proper prefix being smaller. JavaScript compares UTF-16
      code units instead; the two agree inside the Basic Multilingual Plane
      (`Uri.LexLessEqUnits`), which holds every grade value. */
  predicate LexLessEq(a: string, b: string)
  {
    if a == [] then true
    else if b == [] then false
    else if a[0] != b[0] then a[0] < b[0]
    else LexLessEq(a[1..], b[1..])
  }

  /** The string order is total, so exactly one side of a `<=` test holds
      unless the strings are equal. */
  lemma {:induction false} LexLessEqTotal(a: string, b: string)
    ensures LexLessEq(a, b) || LexLessEq(b, a)
    ensures LexLessEq(a, b) && LexLessEq(b, a) ==> a == b
  {
    if a != [] && b != [] && a[0] == b[0] {
      LexLessEqTotal(a[1..], b[1..]);
      if LexLessEq(a, b) && LexLessEq(b, a) {
        assert a == [a[0]] + a[1..] && b == [b[0]] + b[1..];
      }
    }
  }

  /** On the decimal forms of two numbers, the string order agrees with the
      numeric order when the two forms have the same number of digits. */
  lemma {:induction false} LexLessEqSameLength(a: string, b: string)
    requires AllDigits(a) && AllDigits(b) && |a| == |b|
    ensures LexLessEq(a, b) <==> ParseDigits(a) <= ParseDigits(b)
    decreases |a|
  {
    if a != [] {
      LexLessEqSameLength(a[..|a| - 1], b[..|b| - 1]);
      LexPrefix(a, b);
      var pa, pb := ParseDigits(a[..|a| - 1]), ParseDigits(b[..|b| - 1]);
      var da, db := DigitValue(a[|a| - 1]), DigitValue(b[|b| - 1]);
      assert ParseDigits(a) == 10 * pa + da && ParseDigits(b) == 10 * pb + db;
      if a[..|a| - 1] == b[..|b| - 1] {
        assert pa == pb;
      } else {
        LexLessEqSameLength(b[..|b| - 1], a[..|a| - 1]);
        LexLessEqTotal(a[..|a| - 1], b[..|b| - 1]);
        assert pa != pb;
      }
    }
  }

  /** How `<=` on two equally long strings splits at the last character. */
  lemma {:induction false} LexPrefix(a: string, b: string)
    requires |a| == |b| && a != []
    ensures LexLessEq(a, b) <==>
      (if a[..|a| - 1] == b[..|b| - 1] then a[|a| - 1] <= b[|b| - 1]
       else LexLessEq(a[..|a| - 1], b[..|b| - 1]))
    decreases |a|
  {
    if |a| > 1 {
      if a[0] == b[0] {
        assert a[1..][..|a| - 2] == a[..|a| - 1][1..];
        assert b[1..][..|b| - 2] == b[..|b| - 1][1..];
        LexPrefix(a[1..], b[1..]);
        if a[..|a| - 1] == b[..|b| - 1] {
          assert a[1..][..|a| - 2] == b[1..][..|b| - 2];
        } else {
          assert a[..|a| - 1] == [a[0]] + a[..|a| - 1][1..];
          assert b[..|b| - 1] == [b[0]] + b[..|b| - 1][1..];
        }
      } else {
        assert a[..|a| - 1][0] != b[..|b| - 1][0];
      }
    }
  }

  // ------------------------------------------------------------- joining

  /** `parts.join(sep)`. */
  function JoinWith(parts: seq<string>, sep: string): string
  {
    if |parts| == 0 then ""
    else if |parts| == 1 then parts[0]
    else JoinWith(parts[..|parts| - 1], sep) + sep + parts[|parts| - 1]
  }

  /** Appending a part adds the separator and the part at the end. */
  lemma JoinWithAppend(parts: seq<string>, sep: string, p: string)
    requires parts != []
    ensures JoinWith(parts + [p], sep) == JoinWith(parts, sep) + sep + p
  {
    assert (parts + [p])[..|parts|] == parts;
  }
}
