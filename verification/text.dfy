/**
 * String primitives with the semantics the JavaScript sources rely on:
 * `trim` and the regex class `\s` (the WhiteSpace and LineTerminator code
 * points of ECMAScript), `toLowerCase`/`toUpperCase` (on A to Z and the
 * Cyrillic block U+0400 to U+045F), `includes`, `startsWith`, `endsWith`, `split` on one
 * character, and digit filtering as done by `replace(/\D/g, '')`.
 */
module Text {

  /** The code points ECMAScript counts as white space or line terminators. */
  predicate IsSpace(c: char) {
    || ('\U{0009}' <= c <= '\U{000D}')
    || c == ' ' || c == '\U{00A0}' || c == '\U{1680}'
    || ('\U{2000}' <= c <= '\U{200A}')
    || c == '\U{2028}' || c == '\U{2029}' || c == '\U{202F}'
    || c == '\U{205F}' || c == '\U{3000}' || c == '\U{FEFF}'
  }

  /** The regex class `\d`: ASCII digits only. */
  predicate IsDigit(c: char) {
    '0' <= c <= '9'
  }

  predicate AllSpace(s: string) {
    forall k :: 0 <= k < |s| ==> IsSpace(s[k])
  }

  predicate AllDigits(s: string) {
    forall k :: 0 <= k < |s| ==> IsDigit(s[k])
  }

  predicate NoSpace(s: string) {
    forall k :: 0 <= k < |s| ==> !IsSpace(s[k])
  }

  /** `s` has no white space at either end (what `trim` guarantees). */
  predicate IsTrimmed(s: string) {
    s == [] || (!IsSpace(s[0]) && !IsSpace(s[|s| - 1]))
  }

  // ----- length -----

  /** The UTF-16 code units of one character: two for a character above U+FFFF. */
  function Utf16Units(c: char): nat {
    if c as int > 0xFFFF then 2 else 1
  }

  /** `String.prototype.length`, which counts UTF-16 code units, not characters. */
  function Utf16Length(s: string): (n: nat)
    ensures |s| <= n <= 2 * |s|
    decreases |s|
  {
    if s == [] then 0
    else
      var u := Utf16Units(s[0]);
      assert 1 <= u <= 2;
      u + Utf16Length(s[1..])
  }

  lemma {:induction false} Utf16LengthAppend(a: string, b: string)
    ensures Utf16Length(a + b) == Utf16Length(a) + Utf16Length(b)
    decreases |a|
  {
    if a == [] {
      assert a + b == b;
    } else {
      assert (a + b)[1..] == a[1..] + b;
      Utf16LengthAppend(a[1..], b);
    }
  }

  /** A suffix has at most as many code units as any longer suffix of the same string. */
  lemma Utf16LengthOfSuffix(s: string, i: nat, j: nat)
    requires i <= j <= |s|
    ensures Utf16Length(s[j..]) <= Utf16Length(s[i..])
  {
    assert s[i..] == s[i..j] + s[j..];
    Utf16LengthAppend(s[i..j], s[j..]);
  }

  // ----- Latin-1 and UTF-8 -----

  /** Every character is at most U+00FF: the only strings `btoa` accepts. */
  predicate Latin1(s: string) {
    forall k :: 0 <= k < |s| ==> s[k] <= '\U{00FF}'
  }

  lemma Latin1Append(a: string, b: string)
    ensures Latin1(a + b) <==> Latin1(a) && Latin1(b)
  {
    if Latin1(a + b) {
      assert forall k :: 0 <= k < |a| ==> a[k] == (a + b)[k];
      assert forall k :: 0 <= k < |b| ==> b[k] == (a + b)[|a| + k];
    }
  }

  /** The character with code `b`, standing for one byte. */
  function ByteChar(b: int): (c: char)
    requires 0 <= b < 0x100
    ensures c as int == b
  {
    b as char
  }

  /**
   * `unescape(encodeURIComponent(c))`: the UTF-8 bytes of `c`, each as the
   * character with that code.
   */
  function Utf8Char(c: char): (r: string)
    ensures 1 <= |r| <= 4 && Latin1(r)
    ensures |r| == 1 <==> c as int < 0x80
    ensures |r| == 1 ==> r == [c]
  {
    var n := c as int;
    if n < 0x80 then [c]
    else if n < 0x800 then [ByteChar(0xC0 + n / 0x40), ByteChar(0x80 + n % 0x40)]
    else if n < 0x10000 then
      [ByteChar(0xE0 + n / 0x1000), ByteChar(0x80 + n / 0x40 % 0x40), ByteChar(0x80 + n % 0x40)]
    else
      [ByteChar(0xF0 + n / 0x40000), ByteChar(0x80 + n / 0x1000 % 0x40),
       ByteChar(0x80 + n / 0x40 % 0x40), ByteChar(0x80 + n % 0x40)]
  }

  /** `unescape(encodeURIComponent(s))`: a Latin-1 string whatever `s` holds. */
  function Utf8(s: string): (r: string)
    ensures Latin1(r) && |s| <= |r| <= 4 * |s|
    decreases |s|
  {
    if s == [] then []
    else
      var head := Utf8Char(s[0]);
      var tail := Utf8(s[1..]);
      Latin1Append(head, tail);
      head + tail
  }

  /** Text that is all ASCII is its own UTF-8. */
  lemma {:induction false} Utf8OfAscii(s: string)
    requires forall k :: 0 <= k < |s| ==> s[k] as int < 0x80
    ensures Utf8(s) == s
    decreases |s|
  {
    if s != [] {
      Utf8OfAscii(s[1..]);
      assert s == [s[0]] + s[1..];
    }
  }

  // ----- trim -----

  /** The first position at or after `i` that does not hold white space, or `|s|`. */
  function SkipSpaces(s: string, i: nat): (j: nat)
    requires i <= |s|
    ensures i <= j <= |s| && (j == |s| || !IsSpace(s[j]))
    ensures forall k :: i <= k < j ==> IsSpace(s[k])
    decreases |s| - i
  {
    if i < |s| && IsSpace(s[i]) then SkipSpaces(s, i + 1) else i
  }

  /** The end of `s[..j]` without its trailing white space, going back no further than `lo`. */
  function SkipSpacesBack(s: string, lo: nat, j: nat): (e: nat)
    requires lo <= j <= |s|
    ensures lo <= e <= j && (e == lo || !IsSpace(s[e - 1]))
    ensures forall k :: e <= k < j ==> IsSpace(s[k])
    decreases j
  {
    if lo < j && IsSpace(s[j - 1]) then SkipSpacesBack(s, lo, j - 1) else j
  }

  /** The number of white-space characters `trim` removes from the front of `s`. */
  function TrimOffset(s: string): (n: nat)
    ensures n <= |s| && (n == |s| || !IsSpace(s[n]))
    ensures forall k :: 0 <= k < n ==> IsSpace(s[k])
  {
    SkipSpaces(s, 0)
  }

  /** `trimStart`, the white-space skipping that `parseInt` starts with. */
  function TrimStart(s: string): (r: string)
    ensures r == s[TrimOffset(s)..]
  {
    s[TrimOffset(s)..]
  }

  /** `String.prototype.trim`: the longest infix without white space at either end. */
  function Trim(s: string): (r: string)
    ensures IsTrimmed(r)
    ensures TrimOffset(s) + |r| <= |s| && r == s[TrimOffset(s)..TrimOffset(s) + |r|]
    ensures forall k :: TrimOffset(s) + |r| <= k < |s| ==> IsSpace(s[k])
  {
    var o := TrimOffset(s);
    var e := SkipSpacesBack(s, o, |s|);
    assert o < e ==> !IsSpace(s[o]);
    s[o..e]
  }

  /** What `trim` drops from either end of `s` is white space. */
  lemma TrimDropsOnlySpace(s: string)
    ensures AllSpace(s[..TrimOffset(s)]) && AllSpace(s[TrimOffset(s) + |Trim(s)|..])
  {
    var o := TrimOffset(s);
    var e := o + |Trim(s)|;
    assert forall k :: 0 <= k < o ==> s[..o][k] == s[k];
    assert forall k :: 0 <= k < |s| - e ==> s[e..][k] == s[e + k];
  }

  lemma TrimStartOfUntrimmed(s: string)
    requires s == [] || !IsSpace(s[0])
    ensures TrimOffset(s) == 0 && TrimStart(s) == s
  {
  }

  /** `trimStart` drops exactly a leading run of white space. */
  lemma TrimStartAfterSpace(ws: string, t: string)
    requires AllSpace(ws) && (t == [] || !IsSpace(t[0]))
    ensures TrimOffset(ws + t) == |ws| && TrimStart(ws + t) == t
  {
    assert (ws + t)[|ws|..] == t;
  }

  /** Trimming a string that already has no white space at its ends changes nothing. */
  lemma TrimOfTrimmed(s: string)
    requires IsTrimmed(s)
    ensures Trim(s) == s
  {
    assert SkipSpaces(s, 0) == 0;
    assert SkipSpacesBack(s, 0, |s|) == |s|;
  }

  lemma TrimIdempotent(s: string)
    ensures Trim(Trim(s)) == Trim(s)
  {
    TrimOfTrimmed(Trim(s));
  }

  /** A string trims to nothing exactly when it is all white space. */
  lemma TrimEmptyIffAllSpace(s: string)
    ensures Trim(s) == [] <==> AllSpace(s)
  {
    var o := TrimOffset(s);
    if o < |s| {
      assert !IsSpace(s[o]) && s[o] == Trim(s)[0];
    }
  }

  // ----- case mapping -----

  /**
   * `toLowerCase` on one character, for the ASCII capitals A to Z and the
   * Cyrillic capitals U+0400 to U+042F; every other character is kept.
   */
  function LowerChar(c: char): char {
    if 'A' <= c <= 'Z' then (c as int + 32) as char
    else if '\U{0410}' <= c <= '\U{042F}' then (c as int + 32) as char
    else if '\U{0400}' <= c <= '\U{040F}' then (c as int + 80) as char
    else c
  }

  /** `toUpperCase` on one character, the inverse mapping of LowerChar. */
  function UpperChar(c: char): char {
    if 'a' <= c <= 'z' then (c as int - 32) as char
    else if '\U{0430}' <= c <= '\U{044F}' then (c as int - 32) as char
    else if '\U{0450}' <= c <= '\U{045F}' then (c as int - 80) as char
    else c
  }

  function Lower(s: string): (r: string)
    ensures |r| == |s| && forall k :: 0 <= k < |s| ==> r[k] == LowerChar(s[k])
  {
    seq(|s|, k requires 0 <= k < |s| => LowerChar(s[k]))
  }

  function Upper(s: string): (r: string)
    ensures |r| == |s| && forall k :: 0 <= k < |s| ==> r[k] == UpperChar(s[k])
  {
    seq(|s|, k requires 0 <= k < |s| => UpperChar(s[k]))
  }

  /**
   * The characters whose `toLowerCase` and `toUpperCase` in JavaScript are
   * exactly LowerChar and UpperChar: ASCII and the basic Cyrillic block.
   */
  predicate CaseTabled(c: char) {
    c <= '\U{007F}' || '\U{0400}' <= c <= '\U{045F}'
  }

  lemma LowerCharIdempotent(c: char)
    ensures LowerChar(LowerChar(c)) == LowerChar(c)
  {
  }

  /** Lower-casing never turns white space into something else, or the reverse. */
  lemma LowerCharKeepsSpace(c: char)
    ensures IsSpace(LowerChar(c)) == IsSpace(c)
  {
  }

  lemma {:induction false} LowerIdempotent(s: string)
    ensures Lower(Lower(s)) == Lower(s)
  {
    forall k | 0 <= k < |s| ensures Lower(Lower(s))[k] == Lower(s)[k] {
      LowerCharIdempotent(s[k]);
    }
  }

  lemma LowerConcat(a: string, b: string)
    ensures Lower(a + b) == Lower(a) + Lower(b)
  {
    assert forall k :: 0 <= k < |a + b| ==> Lower(a + b)[k] == (Lower(a) + Lower(b))[k];
  }

  lemma {:induction false} SkipSpacesLower(s: string, i: nat)
    requires i <= |s|
    ensures SkipSpaces(Lower(s), i) == SkipSpaces(s, i)
    decreases |s| - i
  {
    if i < |s| {
      LowerCharKeepsSpace(s[i]);
      if IsSpace(s[i]) {
        SkipSpacesLower(s, i + 1);
      }
    }
  }

  lemma {:induction false} SkipSpacesBackLower(s: string, lo: nat, j: nat)
    requires lo <= j <= |s|
    ensures SkipSpacesBack(Lower(s), lo, j) == SkipSpacesBack(s, lo, j)
    decreases j
  {
    if lo < j {
      LowerCharKeepsSpace(s[j - 1]);
      if IsSpace(s[j - 1]) {
        SkipSpacesBackLower(s, lo, j - 1);
      }
    }
  }

  lemma LowerSlice(s: string, a: nat, b: nat)
    requires a <= b <= |s|
    ensures Lower(s)[a..b] == Lower(s[a..b])
  {
  }

  /** `s.trim().toLowerCase()` and `s.toLowerCase().trim()` agree. */
  lemma TrimLowerCommute(s: string)
    ensures Trim(Lower(s)) == Lower(Trim(s))
  {
    var o := TrimOffset(s);
    var e := SkipSpacesBack(s, o, |s|);
    SkipSpacesLower(s, 0);
    SkipSpacesBackLower(s, o, |s|);
    LowerSlice(s, o, e);
  }

  // ----- searching -----

  /** `p` occurs in `s` starting at position `i`. */
  predicate OccursAt(s: string, p: string, i: int) {
    0 <= i && i + |p| <= |s| && s[i..i + |p|] == p
  }

  /** `String.prototype.includes`. */
  function Contains(s: string, p: string): (b: bool)
    ensures b <==> exists i :: OccursAt(s, p, i)
    decreases |s|
  {
    if |p| > |s| then false
    else if p <= s then (assert OccursAt(s, p, 0); true)
    else
      var b := Contains(s[1..], p);
      assert b ==> OccursAt(s, p, 1 + var j :| OccursAt(s[1..], p, j); (assert s[1 + j..1 + j + |p|] == s[1..][j..j + |p|]; j));
      assert !b ==> forall i :: !OccursAt(s, p, i) by {
        forall i | OccursAt(s, p, i) ensures b {
          assert i != 0;
          assert s[1..][i - 1..i - 1 + |p|] == s[i..i + |p|];
          assert OccursAt(s[1..], p, i - 1);
        }
      }
      b
  }

  /** Whatever surrounds it, a string contains each of its infixes. */
  lemma ContainsInfix(a: string, p: string, b: string)
    ensures Contains(a + p + b, p)
  {
    assert (a + p + b)[|a|..|a| + |p|] == p;
    assert OccursAt(a + p + b, p, |a|);
  }

  lemma ContainsNothingInEmpty(p: string)
    requires p != []
    ensures !Contains([], p)
  {
  }

  /** An occurrence survives lower-casing of both sides. */
  lemma ContainsLower(s: string, p: string)
    requires Contains(s, p)
    ensures Contains(Lower(s), Lower(p))
  {
    var i :| OccursAt(s, p, i);
    assert Lower(s)[i..i + |p|] == Lower(p);
    assert OccursAt(Lower(s), Lower(p), i);
  }

  lemma SliceOfSlice(s: string, a: int, b: int, c: int, d: int)
    requires 0 <= a <= b <= |s| && 0 <= c <= d <= b - a
    ensures s[a..b][c..d] == s[a + c..a + d]
  {
    assert forall k :: 0 <= k < d - c ==> s[a..b][c..d][k] == s[a + c..a + d][k];
  }

  lemma OccursContains(s: string, p: string, i: int)
    requires OccursAt(s, p, i)
    ensures Contains(s, p)
  {
  }

  lemma OccursTrimmedPart(s: string, p: string, i: int)
    requires OccursAt(s, p, i)
    ensures OccursAt(s, Trim(p), i + TrimOffset(p))
  {
    var o := TrimOffset(p);
    var t := Trim(p);
    SliceOfSlice(s, i, i + |p|, o, o + |t|);
  }

  /** A string that contains `p` contains the trimmed `p`. */
  lemma ContainsTrimmedPart(s: string, p: string)
    requires Contains(s, p)
    ensures Contains(s, Trim(p))
  {
    var i :| OccursAt(s, p, i);
    OccursTrimmedPart(s, p, i);
    var t := Trim(p);
    var j := i + TrimOffset(p);
    assert OccursAt(s, t, j);
    OccursContains(s, t, j);
  }

  lemma OccursInTrim(s: string, p: string, i: int)
    requires p != [] && IsTrimmed(p) && OccursAt(s, p, i)
    ensures OccursAt(Trim(s), p, i - TrimOffset(s))
  {
    var o := TrimOffset(s);
    var t := Trim(s);
    var e := o + |t|;
    assert s[i] == p[0] && s[i + |p| - 1] == p[|p| - 1];
    SliceOfSlice(s, o, e, i - o, i - o + |p|);
  }

  /**
   * A non-empty, trimmed `p` found in `s` is still found once `s` is
   * trimmed: its first and last characters are not white space, so the
   * occurrence lies inside the trimmed part.
   */
  lemma ContainsInTrim(s: string, p: string)
    requires p != [] && IsTrimmed(p) && Contains(s, p)
    ensures Contains(Trim(s), p)
  {
    var i :| OccursAt(s, p, i);
    OccursInTrim(s, p, i);
    OccursContains(Trim(s), p, i - TrimOffset(s));
  }

  predicate StartsWith(s: string, p: string) {
    p <= s
  }

  predicate EndsWith(s: string, p: string) {
    |p| <= |s| && s[|s| - |p|..] == p
  }

  /** The first position of `c` in `s`, or -1 (`indexOf`). */
  function IndexOf(s: string, c: char): (i: int)
    ensures -1 <= i < |s|
    ensures i == -1 <==> c !in s
    ensures 0 <= i ==> s[i] == c && c !in s[..i]
  {
    if |s| == 0 then -1
    else if s[0] == c then 0
    else
      var j := IndexOf(s[1..], c);
      assert s == [s[0]] + s[1..];
      if j == -1 then -1 else (assert s[..j + 1] == [s[0]] + s[1..][..j]; j + 1)
  }

  /** A position holding `c` with no `c` before it is the one `indexOf` finds. */
  lemma IndexOfFirst(s: string, c: char, i: int)
    requires 0 <= i < |s| && s[i] == c && c !in s[..i]
    ensures IndexOf(s, c) == i
  {
    assert s[i] in s;
  }

  /** `replace(/\/$/, '')`: drop one trailing slash, if there is one. */
  function StripTrailingSlash(s: string): (r: string)
    ensures r + (if EndsWith(s, "/") then "/" else "") == s
  {
    if |s| > 0 && s[|s| - 1] == '/' then s[..|s| - 1] else s
  }

  // ----- character filters -----

  /** `replace(/\D/g, '')`: the digit characters of `s`, in order. */
  function Digits(s: string): (r: string)
    ensures AllDigits(r) && |r| <= |s|
  {
    if s == [] then []
    else if IsDigit(s[0]) then [s[0]] + Digits(s[1..])
    else Digits(s[1..])
  }

  lemma {:induction false} DigitsConcat(a: string, b: string)
    ensures Digits(a + b) == Digits(a) + Digits(b)
    decreases |a|
  {
    if a != [] {
      assert (a + b)[1..] == a[1..] + b;
      DigitsConcat(a[1..], b);
    } else {
      assert a + b == b;
    }
  }

  /** Keeping only the digits of a digit string changes nothing. */
  lemma {:induction false} DigitsOfDigits(s: string)
    requires AllDigits(s)
    ensures Digits(s) == s
    decreases |s|
  {
    if s != [] {
      DigitsOfDigits(s[1..]);
    }
  }

  lemma {:induction false} DigitsIdempotent(s: string)
    ensures Digits(Digits(s)) == Digits(s)
  {
    DigitsOfDigits(Digits(s));
  }

  // ----- decimal numerals -----

  function DigitValue(c: char): nat
    requires IsDigit(c)
  {
    (c as int) - ('0' as int)
  }

  /** The value of a decimal digit string, most significant digit first. */
  function DecimalValue(d: string): nat
    requires AllDigits(d)
  {
    if d == [] then 0 else DecimalValue(d[..|d| - 1]) * 10 + DigitValue(d[|d| - 1])
  }

  function DigitChar(d: nat): (c: char)
    requires d < 10
    ensures IsDigit(c) && DigitValue(c) == d
  {
    ('0' as int + d) as char
  }

  /** `String(n)` for a natural number: its decimal numeral, without leading zeros. */
  function Decimal(n: nat): (d: string)
    ensures d != [] && AllDigits(d)
  {
    if n < 10 then [DigitChar(n)] else Decimal(n / 10) + [DigitChar(n % 10)]
  }

  lemma {:induction false} DecimalValueOfDecimal(n: nat)
    ensures DecimalValue(Decimal(n)) == n
  {
    if n >= 10 {
      var d := Decimal(n);
      assert d[..|d| - 1] == Decimal(n / 10);
      DecimalValueOfDecimal(n / 10);
    }
  }

  // ----- split and join on one character -----

  /** `s.split(sep)` for a one-character separator: always at least one part. */
  function Split(s: string, sep: char): (parts: seq<string>)
    ensures |parts| >= 1
    ensures forall k :: 0 <= k < |parts| ==> sep !in parts[k]
    decreases |s|
  {
    var i := IndexOf(s, sep);
    if i == -1 then [s] else [s[..i]] + Split(s[i + 1..], sep)
  }

  /** `parts.join(sep)`. */
  function Join(parts: seq<string>, sep: char): string {
    if |parts| == 0 then []
    else if |parts| == 1 then parts[0]
    else parts[0] + [sep] + Join(parts[1..], sep)
  }

  lemma AppendAssociative<T>(x: seq<T>, y: seq<T>, z: seq<T>)
    ensures x + (y + z) == (x + y) + z
  {
  }

  lemma ConsParts<T>(p: seq<T>)
    requires |p| > 0
    ensures p == [p[0]] + p[1..]
  {
  }

  lemma ConsLast<T>(x: T, r: seq<T>)
    requires |r| > 0
    ensures ([x] + r)[|r|] == r[|r| - 1] && ([x] + r)[1..] == r
  {
  }

  lemma JoinCons(x: string, rest: seq<string>, sep: char)
    requires |rest| > 0
    ensures Join([x] + rest, sep) == x + [sep] + Join(rest, sep)
  {
    ConsLast(x, rest);
  }

  /** A split cuts at the first separator. */
  lemma SplitAt(s: string, sep: char, i: nat)
    requires i < |s| && s[i] == sep && sep !in s[..i]
    ensures Split(s, sep) == [s[..i]] + Split(s[i + 1..], sep)
  {
    IndexOfFirst(s, sep, i);
  }

  /** A string without the separator is its own only part. */
  lemma SplitWhole(s: string, sep: char)
    requires sep !in s
    ensures Split(s, sep) == [s]
  {
  }

  /** Joining the parts of a split gives back the original string. */
  lemma {:induction false} JoinSplit(s: string, sep: char)
    ensures Join(Split(s, sep), sep) == s
    decreases |s|
  {
    var i := IndexOf(s, sep);
    if i == -1 {
      SplitWhole(s, sep);
    } else {
      SplitAt(s, sep, i);
      var rest := Split(s[i + 1..], sep);
      JoinCons(s[..i], rest, sep);
      JoinSplit(s[i + 1..], sep);
      assert s == s[..i] + [sep] + s[i + 1..];
    }
  }

  /** Splitting a join gives back the parts when no part holds the separator. */
  lemma {:induction false} SplitJoin(parts: seq<string>, sep: char)
    requires |parts| >= 1
    requires forall k :: 0 <= k < |parts| ==> sep !in parts[k]
    ensures Split(Join(parts, sep), sep) == parts
    decreases |parts|
  {
    var x := parts[0];
    if |parts| == 1 {
      SplitWhole(x, sep);
    } else {
      var rest := parts[1..];
      var s := Join(parts, sep);
      assert s == x + [sep] + Join(rest, sep);
      assert s[..|x|] == x && s[|x| + 1..] == Join(rest, sep);
      SplitAt(s, sep, |x|);
      SplitJoin(rest, sep);
      ConsParts(parts);
    }
  }

  /** The last part of a split is what follows the last separator. */
  lemma {:induction false} SplitLast(a: string, sep: char, b: string)
    requires sep !in b
    ensures var parts := Split(a + [sep] + b, sep); parts[|parts| - 1] == b
    decreases |a|
  {
    var s := a + [sep] + b;
    if sep !in a {
      assert s[..|a|] == a && s[|a| + 1..] == b;
      SplitAt(s, sep, |a|);
      SplitWhole(b, sep);
      ConsLast(a, [b]);
    } else {
      var j := IndexOf(a, sep);
      var tail := a[j + 1..];
      assert s[..j] == a[..j] && s[j + 1..] == tail + [sep] + b;
      SplitAt(s, sep, j);
      SplitLast(tail, sep, b);
      ConsLast(a[..j], Split(tail + [sep] + b, sep));
    }
  }

  /** Trim every part and drop the parts that become empty, keeping order. */
  function TrimmedEntries(parts: seq<string>): (r: seq<string>)
    ensures |r| <= |parts|
    ensures forall k :: 0 <= k < |r| ==> r[k] != [] && IsTrimmed(r[k])
  {
    if parts == [] then []
    else
      var t := Trim(parts[0]);
      if t == [] then TrimmedEntries(parts[1..]) else [t] + TrimmedEntries(parts[1..])
  }

  /** `s.split(sep).map(x => x.trim()).filter(Boolean)`. */
  function Entries(s: string, sep: char): (r: seq<string>)
    ensures forall k :: 0 <= k < |r| ==> r[k] != [] && IsTrimmed(r[k]) && sep !in r[k]
  {
    var parts := Split(s, sep);
    EntriesComeFromParts(parts, sep);
    TrimmedEntries(parts)
  }

  lemma {:induction false} EntriesComeFromParts(parts: seq<string>, sep: char)
    requires forall k :: 0 <= k < |parts| ==> sep !in parts[k]
    ensures forall k :: 0 <= k < |TrimmedEntries(parts)| ==> sep !in TrimmedEntries(parts)[k]
    decreases |parts|
  {
    if parts != [] {
      EntriesComeFromParts(parts[1..], sep);
      var t := Trim(parts[0]);
      assert forall c :: c in t ==> c in parts[0];
    }
  }

  lemma {:induction false} TrimmedEntriesOfClean(items: seq<string>)
    requires forall k :: 0 <= k < |items| ==> items[k] != [] && IsTrimmed(items[k])
    ensures TrimmedEntries(items) == items
    decreases |items|
  {
    if items != [] {
      TrimOfTrimmed(items[0]);
      TrimmedEntriesOfClean(items[1..]);
    }
  }

  /**
   * Entries round-trip: entries that are non-empty, trimmed and free of the
   * separator are recovered, in order, from their join.
   */
  lemma {:induction false} EntriesOfJoin(items: seq<string>, sep: char)
    requires |items| >= 1
    requires forall k :: 0 <= k < |items| ==> items[k] != [] && IsTrimmed(items[k]) && sep !in items[k]
    ensures Entries(Join(items, sep), sep) == items
  {
    SplitJoin(items, sep);
    TrimmedEntriesOfClean(items);
  }

  lemma {:induction false} TrimmedEntriesOfBlanks(parts: seq<string>)
    requires forall k :: 0 <= k < |parts| ==> AllSpace(parts[k])
    ensures TrimmedEntries(parts) == []
    decreases |parts|
  {
    if parts != [] {
      TrimEmptyIffAllSpace(parts[0]);
      TrimmedEntriesOfBlanks(parts[1..]);
    }
  }

  /** A string made only of separators and white space has no entries. */
  lemma EntriesOfBlank(s: string, sep: char)
    requires forall k :: 0 <= k < |s| ==> s[k] == sep || IsSpace(s[k])
    ensures Entries(s, sep) == []
  {
    BlankParts(s, sep);
    TrimmedEntriesOfBlanks(Split(s, sep));
  }

  /** Splitting a string of separators and white space leaves parts of white space only. */
  lemma {:induction false} BlankParts(s: string, sep: char)
    requires forall k :: 0 <= k < |s| ==> s[k] == sep || IsSpace(s[k])
    ensures forall k :: 0 <= k < |Split(s, sep)| ==> AllSpace(Split(s, sep)[k])
    decreases |s|
  {
    var i := IndexOf(s, sep);
    if i == -1 {
      SplitWhole(s, sep);
      forall m | 0 <= m < |s| ensures IsSpace(s[m]) {
        assert s[m] in s;
      }
    } else {
      SplitAt(s, sep, i);
      var head, tail := s[..i], s[i + 1..];
      forall m | 0 <= m < |head| ensures IsSpace(head[m]) {
        assert head[m] in head && head[m] == s[m];
      }
      forall m | 0 <= m < |tail| ensures tail[m] == sep || IsSpace(tail[m]) {
        assert tail[m] == s[i + 1 + m];
      }
      BlankParts(tail, sep);
    }
  }

  /** The first part of a split is everything before the first separator. */
  lemma SplitFirst(a: string, sep: char, b: string)
    requires sep !in a
    ensures Split(a + [sep] + b, sep)[0] == a
  {
    var s := a + [sep] + b;
    assert s[..|a|] == a && s[|a|] == sep;
    IndexOfFirst(s, sep, |a|);
  }

  /** Splitting at one separator splits each side on its own. */
  lemma {:induction false} SplitAppend(a: string, sep: char, b: string)
    ensures Split(a + [sep] + b, sep) == Split(a, sep) + Split(b, sep)
    decreases |a|
  {
    var s := a + [sep] + b;
    if sep !in a {
      assert s[..|a|] == a && s[|a| + 1..] == b;
      SplitAt(s, sep, |a|);
      SplitWhole(a, sep);
    } else {
      var i := IndexOf(a, sep);
      var tail := a[i + 1..];
      assert s[..i] == a[..i] && s[i + 1..] == tail + [sep] + b;
      SplitAt(s, sep, i);
      SplitAt(a, sep, i);
      SplitAppend(tail, sep, b);
      AppendAssociative([a[..i]], Split(tail, sep), Split(b, sep));
    }
  }

  lemma {:induction false} TrimmedEntriesAppend(x: seq<string>, y: seq<string>)
    ensures TrimmedEntries(x + y) == TrimmedEntries(x) + TrimmedEntries(y)
    decreases |x|
  {
    if x == [] {
      assert x + y == y;
    } else {
      assert (x + y)[0] == x[0] && (x + y)[1..] == x[1..] + y;
      TrimmedEntriesAppend(x[1..], y);
    }
  }

  /** The entries of two pieces joined by the separator: the first piece's, then the second's. */
  lemma EntriesAppend(a: string, sep: char, b: string)
    ensures Entries(a + [sep] + b, sep) == Entries(a, sep) + Entries(b, sep)
  {
    SplitAppend(a, sep, b);
    TrimmedEntriesAppend(Split(a, sep), Split(b, sep));
  }
}
