/**
 * The contact-field normalisers of the browser client (public/app.js):
 * `normalizePhone`, which canonicalises a phone number to `+` and 8 to 15
 * digits or rejects it with the empty string, and `isValidEmail`, the
 * syntactic `local@domain.tld` check.
 */
module Contact {
  import opened Text

  // ----- phone numbers -----

  /** `replace(/[^\d+]/g, '')`: the digits and plus signs of `s`, in order. */
  function PhoneChars(s: string): (r: string)
    ensures |r| <= |s|
    ensures forall k :: 0 <= k < |r| ==> IsDigit(r[k]) || r[k] == '+'
  {
    if s == [] then []
    else if IsDigit(s[0]) || s[0] == '+' then [s[0]] + PhoneChars(s[1..])
    else PhoneChars(s[1..])
  }

  /** The canonical form `normalizePhone` produces: `+` followed by 8 to 15 digits. */
  predicate IsCanonicalPhone(p: string) {
    |p| >= 1 && p[0] == '+' && AllDigits(p[1..]) && 8 <= |p| - 1 <= 15
  }

  /**
   * `normalizePhone`: trim; keep digits and `+`; read a leading `00` as `+`;
   * demand a leading `+`; keep the digits after it and demand 8 to 15 of
   * them. Every failure gives the empty string.
   */
  function NormalizePhone(value: string): (r: string)
    ensures r == [] || IsCanonicalPhone(r)
  {
    var raw := Trim(value);
    if raw == [] then []
    else
      var kept := PhoneChars(raw);
      var phone := if StartsWith(kept, "00") then "+" + kept[2..] else kept;
      if !StartsWith(phone, "+") then []
      else
        var digits := Digits(phone[1..]);
        if |digits| < 8 || |digits| > 15 then [] else "+" + digits
  }

  lemma {:induction false} PhoneCharsConcat(a: string, b: string)
    ensures PhoneChars(a + b) == PhoneChars(a) + PhoneChars(b)
    decreases |a|
  {
    if a == [] {
      assert a + b == b;
    } else {
      assert (a + b)[1..] == a[1..] + b;
      PhoneCharsConcat(a[1..], b);
    }
  }

  lemma {:induction false} PhoneCharsOfSpace(s: string)
    requires AllSpace(s)
    ensures PhoneChars(s) == []
    decreases |s|
  {
    if s != [] {
      PhoneCharsOfSpace(s[1..]);
    }
  }

  lemma {:induction false} PhoneCharsOfPhoneChars(s: string)
    requires forall k :: 0 <= k < |s| ==> IsDigit(s[k]) || s[k] == '+'
    ensures PhoneChars(s) == s
    decreases |s|
  {
    if s != [] {
      PhoneCharsOfPhoneChars(s[1..]);
    }
  }

  /** Trimming first does not change which digits and plus signs are kept. */
  lemma PhoneCharsOfTrim(s: string)
    ensures PhoneChars(Trim(s)) == PhoneChars(s)
  {
    var t := Trim(s);
    var n := TrimOffset(s);
    var front, back := s[..n], s[n + |t|..];
    TrimDropsOnlySpace(s);
    assert s == front + t + back by {
      assert s[n..n + |t|] == t;
    }
    PhoneCharsConcat(front + t, back);
    PhoneCharsConcat(front, t);
    PhoneCharsOfSpace(front);
    PhoneCharsOfSpace(back);
  }

  /** Dropping everything but digits and `+` keeps every digit. */
  lemma {:induction false} DigitsOfPhoneChars(s: string)
    ensures Digits(PhoneChars(s)) == Digits(s)
    decreases |s|
  {
    if s != [] {
      DigitsOfPhoneChars(s[1..]);
      if IsDigit(s[0]) || s[0] == '+' {
        assert PhoneChars(s) == [s[0]] + PhoneChars(s[1..]);
        assert ([s[0]] + PhoneChars(s[1..]))[1..] == PhoneChars(s[1..]);
      }
    }
  }

  /**
   * The behaviour of `normalizePhone` stated on the digits of the input:
   * once everything but digits and `+` is dropped, the result is `+` and the
   * input's digits (less the two zeros of a leading `00`) when that kept text
   * starts with `+` or `00` and there are 8 to 15 such digits; otherwise it
   * is the empty string.
   */
  lemma NormalizePhoneByDigits(x: string)
    ensures
      var kept := PhoneChars(x);
      var zeros := StartsWith(kept, "00");
      var drop := if zeros then 2 else 0;
      && drop <= |Digits(x)|
      && NormalizePhone(x) ==
           if (zeros || StartsWith(kept, "+")) && 8 <= |Digits(x)| - drop <= 15
           then "+" + Digits(x)[drop..] else []
  {
    var raw := Trim(x);
    var kept := PhoneChars(x);
    PhoneCharsOfTrim(x);
    DigitsOfPhoneChars(x);
    if raw == [] {
      TrimEmptyIffAllSpace(x);
      PhoneCharsOfSpace(x);
    } else if StartsWith(kept, "00") {
      DoubleZeroDigits(kept);
    } else if StartsWith(kept, "+") {
      PlusDigits(kept);
    }
  }

  lemma DoubleZeroDigits(kept: string)
    requires StartsWith(kept, "00")
    ensures |Digits(kept)| >= 2 && Digits(("+" + kept[2..])[1..]) == Digits(kept)[2..]
  {
    assert kept == "00" + kept[2..];
    DigitsConcat("00", kept[2..]);
    assert Digits("00") == "00" by {
      assert Digits("00") == ['0'] + Digits("0");
      assert Digits("0") == ['0'] + Digits("");
    }
    assert ("+" + kept[2..])[1..] == kept[2..];
  }

  lemma PlusDigits(kept: string)
    requires StartsWith(kept, "+")
    ensures Digits(kept[1..]) == Digits(kept)
  {
    assert kept == "+" + kept[1..];
    DigitsConcat("+", kept[1..]);
    assert Digits("+") == Digits("");
  }

  /** A canonical number is a fixed point of `normalizePhone`. */
  lemma NormalizePhoneOfCanonical(p: string)
    requires IsCanonicalPhone(p)
    ensures NormalizePhone(p) == p
  {
    assert forall k :: 0 <= k < |p| ==> IsDigit(p[k]) || p[k] == '+' by {
      forall k | 1 <= k < |p| ensures IsDigit(p[k]) { assert p[k] == p[1..][k - 1]; }
    }
    PhoneCharsOfPhoneChars(p);
    PlusDigits(p);
    DigitsOfDigits(p[1..]);
    assert !StartsWith(p, "00");
    NormalizePhoneByDigits(p);
    assert p == "+" + p[1..];
  }

  /** `normalizePhone(normalizePhone(x)) == normalizePhone(x)` for every input. */
  lemma NormalizePhoneIdempotent(x: string)
    ensures NormalizePhone(NormalizePhone(x)) == NormalizePhone(x)
  {
    var r := NormalizePhone(x);
    if r != [] {
      NormalizePhoneOfCanonical(r);
    }
  }

  /** A `00` international prefix is read as `+`. */
  lemma NormalizePhoneDoubleZero(d: string)
    requires AllDigits(d) && 8 <= |d| <= 15
    ensures NormalizePhone("00" + d) == "+" + d
    ensures NormalizePhone("+" + d) == "+" + d
  {
    NormalizePhoneOfCanonical("+" + d);
    DoubleZeroOfDigits("00" + d, d);
  }

  lemma DoubleZeroOfDigits(x: string, d: string)
    requires AllDigits(d) && 8 <= |d| <= 15 && x == "00" + d
    ensures NormalizePhone(x) == "+" + d
  {
    assert forall k :: 0 <= k < |x| ==> IsDigit(x[k]) by {
      forall k | 2 <= k < |x| ensures IsDigit(x[k]) { assert x[k] == d[k - 2]; }
    }
    PhoneCharsOfPhoneChars(x);
    DigitsOfDigits(x);
    assert x[2..] == d;
    assert StartsWith(x, "00");
    NormalizePhoneByDigits(x);
  }

  /** A number written without `+` or `00` in front is rejected, whatever its length. */
  lemma NormalizePhoneNeedsPrefix(x: string)
    requires !StartsWith(PhoneChars(x), "+") && !StartsWith(PhoneChars(x), "00")
    ensures NormalizePhone(x) == []
  {
    NormalizePhoneByDigits(x);
  }

  // ----- email addresses -----

  /** A character of the regex class `[^\s@]`. */
  predicate IsEmailChar(c: char) {
    !IsSpace(c) && c != '@'
  }

  predicate AllEmailChars(s: string) {
    forall k :: 0 <= k < |s| ==> IsEmailChar(s[k])
  }

  /**
   * `e` matches `^[^\s@]+@[^\s@]+\.[^\s@]{2,}$` with the `@` at `i` and the
   * `.` before the top-level domain at `j`. Without the `u` flag the pattern
   * runs over UTF-16 code units, so `{2,}` counts code units: one character
   * above U+FFFF is a long enough top-level domain.
   */
  predicate EmailSplitAt(e: string, i: int, j: int) {
    && 1 <= i && i + 2 <= j && j + 2 <= |e| && Utf16Length(e[j + 1..]) >= 2
    && e[i] == '@' && e[j] == '.'
    && AllEmailChars(e[..i]) && AllEmailChars(e[i + 1..j]) && AllEmailChars(e[j + 1..])
  }

  /** The regular expression of `isValidEmail`, as a property of the whole string. */
  ghost predicate MatchesEmailPattern(e: string) {
    exists i, j :: EmailSplitAt(e, i, j)
  }

  /**
   * A direct scan for the pattern: everything before the first `@` is a
   * non-empty run of email characters, and so is everything after it, which
   * also has a `.` with at least one character before it and at least two
   * code units after it.
   */
  function EmailShape(e: string): (b: bool)
    ensures b <==> MatchesEmailPattern(e)
  {
    var i := IndexOf(e, '@');
    if i < 1 then
      (assert !MatchesEmailPattern(e) by { NoSplitBeforeFirstAt(e); } false)
    else
      var d := e[i + 1..];
      var q := if |d| == 0 then -1 else IndexOf(d[1..], '.');
      var b := AllEmailChars(e[..i]) && AllEmailChars(d) && q != -1 && Utf16Length(d[q + 2..]) >= 2;
      assert b ==> MatchesEmailPattern(e) by {
        if b { EmailShapeSound(e, i, q); }
      }
      assert MatchesEmailPattern(e) ==> b by {
        if MatchesEmailPattern(e) { EmailShapeComplete(e, i, q); }
      }
      b
  }

  lemma NoSplitBeforeFirstAt(e: string)
    requires IndexOf(e, '@') < 1
    ensures !MatchesEmailPattern(e)
  {
  }

  lemma EmailShapeSound(e: string, i: int, q: int)
    requires 1 <= i == IndexOf(e, '@')
    requires q == if |e[i + 1..]| == 0 then -1 else IndexOf(e[i + 1..][1..], '.')
    requires AllEmailChars(e[..i]) && AllEmailChars(e[i + 1..]) && q != -1 && Utf16Length(e[i + 1..][q + 2..]) >= 2
    ensures MatchesEmailPattern(e)
  {
    var d := e[i + 1..];
    var j := i + 2 + q;
    assert e[j] == d[1..][q];
    assert e[i + 1..j] == d[..q + 1];
    assert e[j + 1..] == d[q + 2..];
    assert EmailSplitAt(e, i, j);
  }

  lemma EmailShapeComplete(e: string, i: int, q: int)
    requires 1 <= i == IndexOf(e, '@')
    requires q == if |e[i + 1..]| == 0 then -1 else IndexOf(e[i + 1..][1..], '.')
    requires MatchesEmailPattern(e)
    ensures AllEmailChars(e[..i]) && AllEmailChars(e[i + 1..]) && q != -1 && Utf16Length(e[i + 1..][q + 2..]) >= 2
  {
    var i', j :| EmailSplitAt(e, i', j);
    SplitAtFirstAt(e, i', j);
    DomainIsEmailChars(e, i, j);
    var d := e[i + 1..];
    assert d[1..][j - i - 2] == '.';
    assert '.' in d[1..];
    assert q <= j - i - 2;
    assert d[q + 2..] == e[i + q + 3..];
    Utf16LengthOfSuffix(e, i + q + 3, j + 1);
  }

  /** Everything after the `@` of a match, dots included, is in `[^\s@]`. */
  lemma DomainIsEmailChars(e: string, i: int, j: int)
    requires EmailSplitAt(e, i, j)
    ensures AllEmailChars(e[i + 1..])
  {
    var d := e[i + 1..];
    forall k | 0 <= k < |d| ensures IsEmailChar(d[k]) {
      if k < j - i - 1 {
        assert d[k] == e[i + 1..j][k];
      } else if k > j - i - 1 {
        assert d[k] == e[j + 1..][k - (j - i)];
      }
    }
  }

  /** The `@` of any match of the pattern is the first `@` of the string. */
  lemma SplitAtFirstAt(e: string, i: int, j: int)
    requires EmailSplitAt(e, i, j)
    ensures IndexOf(e, '@') == i
  {
    assert e[i] == '@';
  }

  /** `isValidEmail`: the trimmed, lower-cased value has the `local@domain.tld` shape. */
  function IsValidEmail(value: string): (b: bool)
    ensures b <==> MatchesEmailPattern(Lower(Trim(value)))
  {
    EmailShape(Lower(Trim(value)))
  }

  /** A valid address has exactly one `@` and no white space at all. */
  lemma ValidEmailHasOneAt(value: string)
    requires IsValidEmail(value)
    ensures var e := Lower(Trim(value));
      NoSpace(e) && exists i :: 0 < i < |e| && e[i] == '@' && '@' !in e[..i] && '@' !in e[i + 1..]
  {
    PatternHasOneAt(Lower(Trim(value)));
  }

  lemma PatternHasOneAt(e: string)
    requires MatchesEmailPattern(e)
    ensures NoSpace(e) && exists i :: 0 < i < |e| && e[i] == '@' && '@' !in e[..i] && '@' !in e[i + 1..]
  {
    var i, j :| EmailSplitAt(e, i, j);
    SplitAtFirstAt(e, i, j);
    DomainIsEmailChars(e, i, j);
    var back := e[i + 1..];
    assert '@' !in back;
    forall k | 0 <= k < |e| ensures !IsSpace(e[k]) {
      if k < i { assert e[k] == e[..i][k]; }
      else if i < k { assert e[k] == back[k - i - 1]; }
    }
  }

  /** Letter case never decides whether an address is valid. */
  lemma ValidEmailIgnoresCase(value: string)
    ensures IsValidEmail(Lower(value)) == IsValidEmail(value)
  {
    TrimLowerCommute(value);
    LowerIdempotent(Trim(value));
  }
}
