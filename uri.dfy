/** The URL encoding behind the visual-aid placeholder: JavaScript's
    `encodeURIComponent` (the Encode operation of ECMA-262's URI handling
    functions), stated twice — on the UTF-16 code units a JavaScript string
    is made of, where an unpaired surrogate throws a `URIError`, and on
    Unicode scalar values, where it cannot fail — together with a decoder
    that inverts it, and `substring` counted in code units beside a
    truncation that keeps whole characters. */
module Uri {
  import opened Outcomes
  import Text

  /** One UTF-16 code unit of a JavaScript string. */
  newtype CodeUnit = x: int | 0 <= x < 0x1_0000

  /** The message of the `URIError` that V8 (Chrome, Node) throws for an
      unpaired surrogate; ECMA-262 leaves the wording to the engine. */
  const UriMalformed := "URI malformed"

  /** The characters `encodeURIComponent` leaves as they are. */
  predicate IsUnreserved(c: char)
  {
    ('A' <= c <= 'Z') || ('a' <= c <= 'z') || ('0' <= c <= '9')
    || c == '-' || c == '_' || c == '.' || c == '!' || c == '~'
    || c == '*' || c == '\'' || c == '(' || c == ')'
  }

  // --------------------------------------------------------------- UTF-8

  /** The UTF-8 bytes of a code point. */
  function Utf8(cp: int): (r: seq<int>)
    requires 0 <= cp < 0x11_0000
    ensures 1 <= |r| <= 4
    ensures forall i :: 0 <= i < |r| ==> 0 <= r[i] < 0x100
    ensures forall i :: 1 <= i < |r| ==> 0x80 <= r[i] < 0xC0
    ensures |r| == 1 <==> cp < 0x80
    ensures ContinuationCount(r[0]) == |r| - 1
  {
    var q1 := cp / 64;
    var q2 := q1 / 64;
    var q3 := q2 / 64;
    if cp < 0x80 then [cp]
    else if cp < 0x800 then [0xC0 + q1, 0x80 + cp % 64]
    else if cp < 0x1_0000 then [0xE0 + q2, 0x80 + q1 % 64, 0x80 + cp % 64]
    else [0xF0 + q3, 0x80 + q2 % 64, 0x80 + q1 % 64, 0x80 + cp % 64]
  }

  /** How many continuation bytes follow a lead byte; 4 marks a byte that
      cannot lead. */
  function ContinuationCount(b: int): nat
  {
    if b < 0x80 then 0 else if 0xC0 <= b < 0xE0 then 1
    else if 0xE0 <= b < 0xF0 then 2 else if 0xF0 <= b < 0xF8 then 3 else 4
  }

  /** An upper-case hexadecimal digit. */
  function HexDigit(d: int): (c: char)
    requires 0 <= d < 16
    ensures IsUnreserved(c)
  {
    if d < 10 then ('0' as int + d) as char else ('A' as int + d - 10) as char
  }

  predicate IsHex(c: char)
  {
    ('0' <= c <= '9') || ('A' <= c <= 'F') || ('a' <= c <= 'f')
  }

  function HexValue(c: char): (d: int)
    requires IsHex(c)
    ensures 0 <= d < 16
  {
    if '0' <= c <= '9' then c as int - '0' as int
    else if 'A' <= c <= 'F' then c as int - 'A' as int + 10
    else c as int - 'a' as int + 10
  }

  lemma HexRoundTrip(d: int)
    requires 0 <= d < 16
    ensures IsHex(HexDigit(d)) && HexValue(HexDigit(d)) == d
  {
  }

  predicate AreBytes(bytes: seq<int>)
  {
    forall i :: 0 <= i < |bytes| ==> 0 <= bytes[i] < 0x100
  }

  /** A byte written as "%" and two upper-case hexadecimal digits. */
  function Escape(b: int): (r: string)
    requires 0 <= b < 0x100
    ensures |r| == 3
  {
    ['%', HexDigit(b / 16), HexDigit(b % 16)]
  }

  function Percent(bytes: seq<int>): (r: string)
    requires AreBytes(bytes)
    ensures |r| == 3 * |bytes|
  {
    if bytes == [] then ""
    else Escape(bytes[0]) + Percent(bytes[1..])
  }

  // ------------------------------------------------- on scalar values

  function EncodeChar(c: char): (r: string)
    ensures r != []
  {
    if IsUnreserved(c) then [c] else Percent(Utf8(c as int))
  }

  /** `encodeURIComponent` on a string of Unicode scalar values. */
  function Encode(s: string): string
  {
    if s == [] then "" else EncodeChar(s[0]) + Encode(s[1..])
  }

  /** Only unreserved characters and "%" appear in an encoding. */
  predicate Encoded(r: string)
  {
    forall i :: 0 <= i < |r| ==> IsUnreserved(r[i]) || r[i] == '%'
  }

  lemma EncodedAppend(a: string, b: string)
    requires Encoded(a) && Encoded(b)
    ensures Encoded(a + b)
  {
    forall i | 0 <= i < |a + b| ensures IsUnreserved((a + b)[i]) || (a + b)[i] == '%' {
      if i < |a| { assert (a + b)[i] == a[i]; } else { assert (a + b)[i] == b[i - |a|]; }
    }
  }

  lemma {:induction false} PercentEncoded(bytes: seq<int>)
    requires AreBytes(bytes)
    ensures Encoded(Percent(bytes))
  {
    if bytes != [] {
      PercentEncoded(bytes[1..]);
      var x := Escape(bytes[0]);
      assert Encoded(x) by {
        assert x[0] == '%';
      }
      EncodedAppend(x, Percent(bytes[1..]));
    }
  }

  lemma {:induction false} EncodeEncoded(s: string)
    ensures Encoded(Encode(s))
  {
    if s != [] {
      EncodeEncoded(s[1..]);
      if !IsUnreserved(s[0]) {
        PercentEncoded(Utf8(s[0] as int));
      }
      EncodedAppend(EncodeChar(s[0]), Encode(s[1..]));
    }
  }

  /** The encoding is a text every URL component can carry as it is: no
      separator, fragment mark, plus sign, space or equals sign survives. */
  lemma EncodeAlphabet(s: string)
    ensures '&' !in Encode(s) && '#' !in Encode(s) && '+' !in Encode(s)
    ensures ' ' !in Encode(s) && '=' !in Encode(s) && '?' !in Encode(s)
  {
    var r := Encode(s);
    EncodeEncoded(s);
    forall c | c in r ensures c != '&' && c != '#' && c != '+' && c != ' ' && c != '=' && c != '?' {
      var i :| 0 <= i < |r| && r[i] == c;
      assert IsUnreserved(r[i]) || r[i] == '%';
    }
  }

  /** A text made only of unreserved characters is its own encoding. */
  lemma {:induction false} EncodeUnreserved(s: string)
    requires forall i :: 0 <= i < |s| ==> IsUnreserved(s[i])
    ensures Encode(s) == s
  {
    if s != [] {
      EncodeUnreserved(s[1..]);
    }
  }

  // -------------------------------------------------------------- decoding

  /** The byte written as "%XY" at position `i`, if one is there. */
  function ReadByte(e: string, i: nat): (r: Option<int>)
    ensures r.Some? ==> i + 3 <= |e| && 0 <= r.value < 0x100
  {
    if i + 3 <= |e| && e[i] == '%' && IsHex(e[i + 1]) && IsHex(e[i + 2])
    then Some(HexValue(e[i + 1]) * 16 + HexValue(e[i + 2]))
    else None
  }

  /** Reads `count` continuation bytes from position `i` on, adding six bits
      of each to `acc`. */
  function Continue(e: string, i: nat, count: nat, acc: int): Option<int>
    decreases count
  {
    if count == 0 then Some(acc)
    else match ReadByte(e, i)
      case None => None
      case Some(b) =>
        if 0x80 <= b < 0xC0 then Continue(e, i + 3, count - 1, acc * 64 + (b - 0x80)) else None
  }

  predicate IsScalar(cp: int)
  {
    (0 <= cp < 0xD800) || (0xE000 <= cp < 0x11_0000)
  }

  /** The character an escape sequence at the start of `e` stands for, and
      how many characters of `e` it takes up. */
  function ReadEscape(e: string): (r: Option<(char, nat)>)
    ensures r.Some? ==> 0 < r.value.1 <= |e|
  {
    match ReadByte(e, 0)
    case None => None
    case Some(b) =>
      var count := ContinuationCount(b);
      if count == 4 || 3 * (count + 1) > |e| then None
      else match Continue(e, 3, count, LeadBits(b, count))
        case None => None
        case Some(cp) => if IsScalar(cp) then Some((cp as char, 3 * (count + 1))) else None
  }

  function PrependChar(c: char, o: Option<string>): Option<string>
  {
    match o
    case None => None
    case Some(s) => Some([c] + s)
  }

  /** Reads an encoded text back: an escape sequence stands for the
      character whose UTF-8 bytes it spells, any other character for
      itself. */
  function Decode(e: string): Option<string>
    decreases |e|
  {
    if e == [] then Some("")
    else if e[0] != '%' then PrependChar(e[0], Decode(e[1..]))
    else match ReadEscape(e)
      case None => None
      case Some((c, k)) => PrependChar(c, Decode(e[k..]))
  }

  /** The escape of a byte reads back as that byte. */
  lemma ReadEscapedByte(e: string, i: nat, b: int)
    requires 0 <= b < 0x100 && i + 3 <= |e| && e[i..i + 3] == Escape(b)
    ensures ReadByte(e, i) == Some(b)
  {
    assert e[i] == Escape(b)[0] && e[i + 1] == Escape(b)[1] && e[i + 2] == Escape(b)[2];
    HexRoundTrip(b / 16);
    HexRoundTrip(b % 16);
  }

  /** The `i`-th three characters of the escaped bytes are the escape of the
      `i`-th byte. */
  lemma {:induction false} PercentWindow(bytes: seq<int>, i: nat)
    requires AreBytes(bytes) && i < |bytes|
    ensures Percent(bytes)[3 * i..3 * i + 3] == Escape(bytes[i])
  {
    var p := Percent(bytes);
    if i > 0 {
      PercentWindow(bytes[1..], i - 1);
      assert p[3 * i..3 * i + 3] == Percent(bytes[1..])[3 * (i - 1)..3 * (i - 1) + 3];
    }
  }

  /** A slice inside the first part of a concatenation is a slice of that
      part. */
  lemma SliceOfAppend(p: string, rest: string, lo: int, hi: int)
    requires 0 <= lo <= hi <= |p|
    ensures (p + rest)[lo..hi] == p[lo..hi]
  {
  }

  lemma PercentRead(bytes: seq<int>, rest: string, i: nat)
    requires AreBytes(bytes) && i < |bytes|
    ensures ReadByte(Percent(bytes) + rest, 3 * i) == Some(bytes[i])
  {
    var p := Percent(bytes);
    PercentWindow(bytes, i);
    SliceOfAppend(p, rest, 3 * i, 3 * i + 3);
    ReadEscapedByte(p + rest, 3 * i, bytes[i]);
  }

  /** The code-point bits a lead byte carries, for a sequence of `count`
      continuation bytes. */
  function LeadBits(b: int, count: nat): int
  {
    if count == 0 then b else if count == 1 then b - 0xC0
    else if count == 2 then b - 0xE0 else b - 0xF0
  }

  /** Six bits of each continuation byte appended to `acc`. */
  function Fold(acc: int, bs: seq<int>): int
    decreases |bs|
  {
    if bs == [] then acc else Fold(acc * 64 + (bs[0] - 0x80), bs[1..])
  }

  /** Continuation bytes at positions `3 * k`, from the `j`-th on, fold
      into the accumulated code point. */
  lemma {:induction false} ContinueReads(e: string, bs: seq<int>, j: nat, acc: int)
    requires 1 <= j <= |bs|
    requires forall k :: 1 <= k < |bs| ==> ReadByte(e, 3 * k) == Some(bs[k]) && 0x80 <= bs[k] < 0xC0
    ensures Continue(e, 3 * j, |bs| - j, acc) == Some(Fold(acc, bs[j..]))
    decreases |bs| - j
  {
    if j < |bs| {
      assert ReadByte(e, 3 * j) == Some(bs[j]);
      assert bs[j..][0] == bs[j] && bs[j..][1..] == bs[j + 1..];
      ContinueReads(e, bs, j + 1, acc * 64 + (bs[j] - 0x80));
      assert 3 * (j + 1) == 3 * j + 3;
    }
  }

  /** The bits of the UTF-8 bytes of a code point put together again give
      the code point. */
  lemma Utf8Fold(cp: int)
    requires 0 <= cp < 0x11_0000
    ensures var bs := Utf8(cp); Fold(LeadBits(bs[0], |bs| - 1), bs[1..]) == cp
  {
    var bs := Utf8(cp);
    var q1 := cp / 64;
    var q2 := q1 / 64;
    if |bs| == 2 {
      assert Fold(q1, bs[1..]) == Fold(cp, []);
    } else if |bs| == 3 {
      assert Fold(q2, bs[1..]) == Fold(q1, bs[2..]) == Fold(cp, []);
    } else if |bs| == 4 {
      var q3 := q2 / 64;
      assert Fold(q3, bs[1..]) == Fold(q2, bs[2..]) == Fold(q1, bs[3..]) == Fold(cp, []);
    }
  }

  /** The escape sequences of a character read back as that character. */
  lemma EscapeRoundTrip(c: char, rest: string)
    requires !IsUnreserved(c)
    ensures ReadEscape(Percent(Utf8(c as int)) + rest) == Some((c, |Percent(Utf8(c as int))|))
  {
    var cp := c as int;
    var bs := Utf8(cp);
    var e := Percent(bs) + rest;
    var count := |bs| - 1;
    assert ReadByte(e, 0) == Some(bs[0]) by {
      PercentRead(bs, rest, 0);
    }
    ContinueOfUtf8(cp, rest);
    ReadEscapeOf(e, bs[0], count, cp);
  }

  /** The continuation bytes of an escaped code point fold back into it. */
  lemma ContinueOfUtf8(cp: int, rest: string)
    requires 0 <= cp < 0x11_0000
    ensures var bs := Utf8(cp);
      Continue(Percent(bs) + rest, 3, |bs| - 1, LeadBits(bs[0], |bs| - 1)) == Some(cp)
  {
    var bs := Utf8(cp);
    var e := Percent(bs) + rest;
    forall k | 1 <= k < |bs| ensures ReadByte(e, 3 * k) == Some(bs[k]) && 0x80 <= bs[k] < 0xC0 {
      PercentRead(bs, rest, k);
    }
    ContinueReads(e, bs, 1, LeadBits(bs[0], |bs| - 1));
    Utf8Fold(cp);
  }

  lemma ReadEscapeOf(e: string, b: int, count: nat, cp: int)
    requires ReadByte(e, 0) == Some(b) && count < 4 && 3 * (count + 1) <= |e|
    requires count == ContinuationCount(b)
    requires Continue(e, 3, count, LeadBits(b, count)) == Some(cp) && IsScalar(cp)
    ensures ReadEscape(e) == Some((cp as char, 3 * (count + 1)))
  {
  }

  /** Decoding an encoding gives back the text: distinct texts have distinct
      encodings, and nothing of the text is lost. */
  lemma {:induction false} DecodeEncode(s: string)
    ensures Decode(Encode(s)) == Some(s)
  {
    if s != [] {
      assert Encode(s) == EncodeChar(s[0]) + Encode(s[1..]);
      DecodeEncode(s[1..]);
      DecodeChar(s[0], Encode(s[1..]));
      assert s == [s[0]] + s[1..];
    }
  }

  /** The encoding of one character decodes to that character, whatever
      follows it. */
  lemma DecodeChar(c: char, rest: string)
    ensures Decode(EncodeChar(c) + rest) == PrependChar(c, Decode(rest))
  {
    var e := EncodeChar(c) + rest;
    if IsUnreserved(c) {
      assert e[1..] == rest;
    } else {
      EscapeRoundTrip(c, rest);
      assert e[0] == '%';
      assert e[|EncodeChar(c)|..] == rest;
    }
  }

  // ------------------------------------------------------ on code units

  predicate IsLeading(u: CodeUnit)
  {
    0xD800 <= u < 0xDC00
  }

  predicate IsTrailing(u: CodeUnit)
  {
    0xDC00 <= u < 0xE000
  }

  predicate IsAstral(c: char)
  {
    c as int >= 0x1_0000
  }

  /** The UTF-16 code units of one character: a surrogate pair for a
      character outside the Basic Multilingual Plane. */
  function Utf16(c: char): (r: seq<CodeUnit>)
    ensures |r| == (if IsAstral(c) then 2 else 1)
    ensures IsAstral(c) ==> IsLeading(r[0]) && IsTrailing(r[1])
    ensures !IsAstral(c) ==> r[0] as int == c as int && !IsLeading(r[0]) && !IsTrailing(r[0])
  {
    var cp := c as int;
    if cp < 0x1_0000 then [cp as CodeUnit]
    else [(0xD800 + (cp - 0x1_0000) / 0x400) as CodeUnit, (0xDC00 + (cp - 0x1_0000) % 0x400) as CodeUnit]
  }

  /** The JavaScript string holding a text. */
  function ToUtf16(s: string): (r: seq<CodeUnit>)
    ensures |r| >= |s|
  {
    if s == [] then [] else Utf16(s[0]) + ToUtf16(s[1..])
  }

  lemma ToUtf16Append(a: string, b: string)
    ensures ToUtf16(a + b) == ToUtf16(a) + ToUtf16(b)
  {
    if a == [] {
      assert a + b == b;
    } else {
      assert (a + b)[1..] == a[1..] + b;
      ToUtf16Append(a[1..], b);
      assert ToUtf16(a + b) == Utf16(a[0]) + (ToUtf16(a[1..]) + ToUtf16(b));
    }
  }

  function Prepend(p: string, o: Outcome<string>): Outcome<string>
  {
    match o
    case Resolved(v) => Resolved(p + v)
    case Rejected(e) => Rejected(e)
  }

  /** `encodeURIComponent` on a JavaScript string: unreserved units are
      copied, a surrogate pair or any other unit is written as the escaped
      UTF-8 bytes of its code point, and an unpaired surrogate throws
      `URIError`. */
  function EncodeUnits(u: seq<CodeUnit>): Outcome<string>
    decreases |u|
  {
    if u == [] then Resolved("")
    else if u[0] < 0x80 && IsUnreserved(u[0] as int as char) then
      Prepend([u[0] as int as char], EncodeUnits(u[1..]))
    else if IsLeading(u[0]) && |u| >= 2 && IsTrailing(u[1]) then
      var cp := (u[0] as int - 0xD800) * 0x400 + (u[1] as int - 0xDC00) + 0x1_0000;
      Prepend(Percent(Utf8(cp)), EncodeUnits(u[2..]))
    else if IsLeading(u[0]) || IsTrailing(u[0]) then
      Rejected(ErrorObject(UriMalformed))
    else
      Prepend(Percent(Utf8(u[0] as int)), EncodeUnits(u[1..]))
  }

  lemma EncodeUnitsChar(c: char, v: seq<CodeUnit>)
    ensures EncodeUnits(Utf16(c) + v) == Prepend(EncodeChar(c), EncodeUnits(v))
  {
    var u := Utf16(c) + v;
    if IsAstral(c) {
      assert u[2..] == v;
      assert !(u[0] < 0x80);
    } else {
      assert u[1..] == v;
      assert u[0] as int as char == c;
    }
  }

  lemma PrependAppend(a: string, b: string, o: Outcome<string>)
    ensures Prepend(a, Prepend(b, o)) == Prepend(a + b, o)
  {
    if o.Resolved? {
      assert a + (b + o.value) == (a + b) + o.value;
    }
  }

  /** The code units of a text encode as the text does, whatever follows
      them. */
  lemma {:induction false} EncodeUnitsAppend(s: string, v: seq<CodeUnit>)
    ensures EncodeUnits(ToUtf16(s) + v) == Prepend(Encode(s), EncodeUnits(v))
  {
    if s == [] {
      assert ToUtf16(s) + v == v;
      match EncodeUnits(v)
      case Resolved(x) => assert "" + x == x;
      case Rejected(_) =>
    } else {
      assert ToUtf16(s) + v == Utf16(s[0]) + (ToUtf16(s[1..]) + v);
      EncodeUnitsChar(s[0], ToUtf16(s[1..]) + v);
      EncodeUnitsAppend(s[1..], v);
      PrependAppend(EncodeChar(s[0]), Encode(s[1..]), EncodeUnits(v));
    }
  }

  /** A JavaScript string that holds a whole text never makes
      `encodeURIComponent` throw, and encodes as the text does. */
  lemma EncodeUnitsWellFormed(s: string)
    ensures EncodeUnits(ToUtf16(s)) == Resolved(Encode(s))
  {
    EncodeUnitsAppend(s, []);
    assert ToUtf16(s) + [] == ToUtf16(s);
    assert Encode(s) + "" == Encode(s);
  }

  /** A string ending in the first half of a surrogate pair makes
      `encodeURIComponent` throw. */
  lemma EncodeUnitsLoneLeading(s: string, c: char)
    requires IsAstral(c)
    ensures EncodeUnits(ToUtf16(s) + [Utf16(c)[0]]) == Rejected(ErrorObject(UriMalformed))
  {
    EncodeUnitsAppend(s, [Utf16(c)[0]]);
  }

  // ------------------------------------------------------------ truncation

  /** `s.substring(0, n)` on a JavaScript string: the first `n` code units. */
  function Substring(u: seq<CodeUnit>, n: nat): (r: seq<CodeUnit>)
    ensures |r| == if n < |u| then n else |u|
  {
    if n < |u| then u[..n] else u
  }

  /** The longest run of whole characters at the start of `s` that fits in
      `n` code units. */
  function Truncate(s: string, n: nat): (r: string)
    ensures |r| <= |s| && r == s[..|r|]
    ensures |ToUtf16(r)| <= n
  {
    if s == [] || |Utf16(s[0])| > n then ""
    else [s[0]] + Truncate(s[1..], n - |Utf16(s[0])|)
  }

  /** The truncation is the longest that fits: it is the whole text, or the
      next character would not fit. */
  lemma {:induction false} TruncateMaximal(s: string, n: nat)
    ensures var t := Truncate(s, n);
      t == s || |ToUtf16(t + [s[|t|]])| > n
  {
    var t := Truncate(s, n);
    if s != [] && |Utf16(s[0])| <= n {
      var t1 := Truncate(s[1..], n - |Utf16(s[0])|);
      TruncateMaximal(s[1..], n - |Utf16(s[0])|);
      if t1 != s[1..] {
        var y := s[1..][|t1|];
        assert s[|t|] == y;
        AppendAssoc([s[0]], t1, [y]);
        ToUtf16Cons(s[0], t1 + [y]);
      } else {
        SplitAround(s, 0);
      }
    } else if s != [] {
      assert t + [s[|t|]] == [s[0]];
      ToUtf16Single(s[0]);
    }
  }

  lemma AppendAssoc(a: string, b: string, c: string)
    ensures (a + b) + c == a + (b + c)
  {
  }

  lemma SubstringPrepend(p: seq<CodeUnit>, v: seq<CodeUnit>, n: nat)
    requires |p| <= n
    ensures Substring(p + v, n) == p + Substring(v, n - |p|)
  {
    if n - |p| < |v| {
      assert (p + v)[..n] == p + v[..n - |p|];
    }
  }

  /** The cut at `n` code units falls inside the surrogate pair of a
      character. */
  predicate SplitsPair(s: string, n: nat)
  {
    var t := Truncate(s, n);
    |t| < |s| && IsAstral(s[|t|]) && |ToUtf16(t)| == n - 1
  }

  /** Cutting a JavaScript string at `n` code units either ends on a
      character boundary, where it keeps the same characters as the
      truncation, or splits the surrogate pair of the next character and
      keeps its first half. */
  lemma SubstringCases(s: string, n: nat)
    ensures !SplitsPair(s, n) ==> Substring(ToUtf16(s), n) == ToUtf16(Truncate(s, n))
    ensures SplitsPair(s, n) ==>
      var t := Truncate(s, n);
      Substring(ToUtf16(s), n) == ToUtf16(t) + [Utf16(s[|t|])[0]]
  {
    var t := Truncate(s, n);
    if t != s {
      var x := s[|t|];
      var rest := s[|t| + 1..];
      TruncateNext(s, n);
      CutCases(ToUtf16(t), Utf16(x), ToUtf16(rest), n);
    }
  }

  /** Where the truncation stops short of the whole text, the code units are
      those of the truncation, then of the next character, then of the
      rest, and the next character does not fit. */
  lemma TruncateNext(s: string, n: nat)
    requires Truncate(s, n) != s
    ensures var t := Truncate(s, n);
      && ToUtf16(s) == ToUtf16(t) + (Utf16(s[|t|]) + ToUtf16(s[|t| + 1..]))
      && |ToUtf16(t)| + |Utf16(s[|t|])| > n
  {
    UnitsAround(s, |Truncate(s, n)|);
    TruncateOverflows(s, n);
  }

  /** The code units of a text, around one of its characters. */
  lemma UnitsAround(s: string, i: int)
    requires 0 <= i < |s|
    ensures ToUtf16(s) == ToUtf16(s[..i]) + (Utf16(s[i]) + ToUtf16(s[i + 1..]))
  {
    var p, x, rest := s[..i], s[i], s[i + 1..];
    SplitAround(s, i);
    ToUtf16Append(p, [x] + rest);
    ToUtf16Cons(x, rest);
  }

  lemma SplitAround(s: string, i: int)
    requires 0 <= i < |s|
    ensures s == s[..i] + ([s[i]] + s[i + 1..])
  {
  }

  lemma ToUtf16Cons(x: char, rest: string)
    ensures ToUtf16([x] + rest) == Utf16(x) + ToUtf16(rest)
  {
    assert ([x] + rest)[1..] == rest;
  }

  /** The character after a truncation does not fit. */
  lemma TruncateOverflows(s: string, n: nat)
    requires Truncate(s, n) != s
    ensures var t := Truncate(s, n);
      |ToUtf16(t)| + |Utf16(s[|t|])| > n
  {
    var t := Truncate(s, n);
    TruncateMaximal(s, n);
    ToUtf16Append(t, [s[|t|]]);
    ToUtf16Single(s[|t|]);
  }

  /** Cutting code units `tu`, then the one or two units `xu` of a
      character, then `ru`, at a position inside `xu` or just before it. */
  lemma CutCases(tu: seq<CodeUnit>, xu: seq<CodeUnit>, ru: seq<CodeUnit>, n: nat)
    requires |tu| <= n < |tu| + |xu| && 1 <= |xu| <= 2
    ensures Substring(tu + (xu + ru), n) == if |tu| == n then tu else tu + [xu[0]]
  {
    if |tu| == n {
      assert (tu + (xu + ru))[..n] == tu;
    } else {
      assert (tu + (xu + ru))[..n] == tu + [xu[0]];
    }
  }

  lemma ToUtf16Single(c: char)
    ensures ToUtf16([c]) == Utf16(c)
  {
    assert [c][1..] == [];
  }

  // ------------------------------------------------- string comparison

  /** JavaScript's `a <= b` on strings: lexicographic on UTF-16 code units,
      a proper prefix being smaller. */
  predicate UnitsLessEq(u: seq<CodeUnit>, v: seq<CodeUnit>)
  {
    if u == [] then true
    else if v == [] then false
    else if u[0] != v[0] then u[0] < v[0]
    else UnitsLessEq(u[1..], v[1..])
  }

  /** On text inside the Basic Multilingual Plane, comparing characters is
      comparing code units. */
  lemma {:induction false} LexLessEqUnits(a: string, b: string)
    requires forall i :: 0 <= i < |a| ==> !IsAstral(a[i])
    requires forall i :: 0 <= i < |b| ==> !IsAstral(b[i])
    ensures Text.LexLessEq(a, b) <==> UnitsLessEq(ToUtf16(a), ToUtf16(b))
  {
    if a != [] && b != [] {
      var ua, ub := ToUtf16(a), ToUtf16(b);
      assert ua[0] as int == a[0] as int && ua[1..] == ToUtf16(a[1..]);
      assert ub[0] as int == b[0] as int && ub[1..] == ToUtf16(b[1..]);
      LexLessEqUnits(a[1..], b[1..]);
    } else if a != [] {
      assert |ToUtf16(a)| >= 1;
    }
  }

  /** Above the Basic Multilingual Plane the two orders part: U+FFFF comes
      before U+10000 as a character, but after it as code units, because
      U+10000 starts with the surrogate 0xD800. */
  lemma LexLessEqAstral()
    ensures Text.LexLessEq("\U{FFFF}", "\U{10000}")
    ensures !UnitsLessEq(ToUtf16("\U{FFFF}"), ToUtf16("\U{10000}"))
  {
    assert ToUtf16("\U{10000}")[0] == 0xD800;
  }

  /** On text inside the Basic Multilingual Plane a code unit is a
      character, so truncating is `substring`. */
  lemma {:induction false} TruncateBmp(s: string, n: nat)
    requires forall i :: 0 <= i < |s| ==> !IsAstral(s[i])
    ensures Truncate(s, n) == s[..if n < |s| then n else |s|]
    ensures |ToUtf16(s)| == |s|
  {
    if s != [] {
      TruncateBmp(s[1..], if n == 0 then 0 else n - 1);
    }
  }
}
