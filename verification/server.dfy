/**
 * The decision logic of the Express server (server.js) around its database
 * and crypto calls: the admin e-mail list and its membership test, the admin
 * gate, the CORS origin decision, the clamp of the overview `limit` query
 * parameter (with `parseInt` in base 10), and the checks of the
 * password-reset request. The chat endpoint is `Chat.Respond` with the
 * KVANTUM brand; the notify endpoint is `Notify.Dispatch`.
 */
module Server {
  import opened Text
  import opened Base

  // ----- admin e-mail addresses -----

  const DefaultAdminEmail := "baitursagynbekov3@gmail.com"

  /** `process.env.ADMIN_EMAILS || default`. */
  function AdminSource(env: string): string {
    if env == [] then DefaultAdminEmail else env
  }

  /** An entry as the server keeps it: non-empty, trimmed, lower-case, without a comma. */
  predicate IsCleanEntry(x: string) {
    x != [] && IsTrimmed(x) && Lower(x) == x && ',' !in x
  }

  lemma LowerOfEntry(t: string)
    requires t != [] && IsTrimmed(t) && ',' !in t
    ensures IsCleanEntry(Lower(t))
  {
    var l := Lower(t);
    LowerCharKeepsSpace(t[0]);
    LowerCharKeepsSpace(t[|t| - 1]);
    LowerIdempotent(t);
    forall k | 0 <= k < |t| ensures l[k] != ',' {
      assert t[k] in t;
    }
  }

  /**
   * A comma-separated address list as the server reads it: split on
   * commas, each entry trimmed and lower-cased, empty entries dropped.
   * Lower-casing keeps lengths, so dropping the empty entries before or
   * after it is the same.
   */
  function AdminList(src: string): (r: seq<string>)
    ensures |r| == |Entries(src, ',')|
    ensures forall k :: 0 <= k < |r| ==> IsCleanEntry(r[k]) && r[k] == Lower(Entries(src, ',')[k])
  {
    var e := Entries(src, ',');
    assert forall k :: 0 <= k < |e| ==> IsCleanEntry(Lower(e[k])) by {
      forall k | 0 <= k < |e| ensures IsCleanEntry(Lower(e[k])) {
        LowerOfEntry(e[k]);
      }
    }
    seq(|e|, k requires 0 <= k < |e| => Lower(e[k]))
  }

  /** ADMIN_EMAILS, read once from the environment variable. */
  function AdminEmails(env: string): seq<string> {
    AdminList(AdminSource(env))
  }

  /** `(email || '').trim().toLowerCase()`. */
  function NormalizeEmail(email: Option<string>): (e: string)
    ensures IsTrimmed(e) && Lower(e) == e
    ensures email.None? ==> e == []
  {
    LowerIdempotent(Trim(OrEmpty(email)));
    TrimLowerCommute(OrEmpty(email));
    Lower(Trim(OrEmpty(email)))
  }

  /** `isAdminEmail`: a blank address is never an admin. */
  function IsAdminEmail(email: Option<string>, admins: seq<string>): (b: bool)
    ensures NormalizeEmail(email) == [] ==> !b
    ensures NormalizeEmail(email) != [] ==> (b <==> NormalizeEmail(email) in admins)
  {
    var n := NormalizeEmail(email);
    if n == [] then false else n in admins
  }

  /**
   * An address is an admin exactly when it matches an entry of the
   * configured list up to case and surrounding white space.
   */
  lemma AdminEmailIffListed(src: string, email: string)
    ensures IsAdminEmail(Some(email), AdminList(src))
        <==> exists x :: x in Entries(src, ',') && Lower(Trim(email)) == Lower(x)
  {
    var n := Lower(Trim(email));
    assert NormalizeEmail(Some(email)) == n;
    if n in AdminList(src) {
      ListedEntryOfAdmin(src, n);
    }
    if x :| x in Entries(src, ',') && n == Lower(x) {
      AdminOfListedEntry(src, x);
    }
  }

  lemma ListedEntryOfAdmin(src: string, n: string)
    requires n in AdminList(src)
    ensures exists x :: x in Entries(src, ',') && n == Lower(x)
  {
    var e := Entries(src, ',');
    var r := AdminList(src);
    var k :| 0 <= k < |r| && r[k] == n;
    assert e[k] in e;
  }

  lemma AdminOfListedEntry(src: string, x: string)
    requires x in Entries(src, ',')
    ensures Lower(x) in AdminList(src) && Lower(x) != []
  {
    var e := Entries(src, ',');
    var r := AdminList(src);
    var k :| 0 <= k < |e| && e[k] == x;
    assert r[k] == Lower(x);
  }

  /** Lower-casing entries that are already lower-case gives them back. */
  lemma AdminListOfEntries(src: string, list: seq<string>)
    requires Entries(src, ',') == list
    requires forall k :: 0 <= k < |list| ==> Lower(list[k]) == list[k]
    ensures AdminList(src) == list
  {
    var r := AdminList(src);
    assert |r| == |list|;
    forall k | 0 <= k < |r| ensures r[k] == list[k] {
      assert r[k] == Lower(list[k]);
    }
  }

  /** A comma-separated list of clean addresses is read back as that list. */
  lemma AdminEmailsOfList(list: seq<string>)
    requires |list| >= 1
    requires forall k :: 0 <= k < |list| ==> IsCleanEntry(list[k])
    ensures AdminList(Join(list, ',')) == list
  {
    forall k | 0 <= k < |list|
      ensures list[k] != [] && IsTrimmed(list[k]) && ',' !in list[k] && Lower(list[k]) == list[k]
    {
      assert IsCleanEntry(list[k]);
    }
    var env := Join(list, ',');
    EntriesOfJoin(list, ',');
    assert Entries(env, ',') == list;
    AdminListOfEntries(env, list);
  }

  /** Without the environment variable, the one built-in address is the admin list. */
  lemma DefaultAdminList()
    ensures AdminEmails("") == [DefaultAdminEmail]
  {
    var d := DefaultAdminEmail;
    assert forall k :: 0 <= k < |d| ==> 'a' <= d[k] <= 'z' || d[k] == '@' || d[k] == '.' || IsDigit(d[k]);
    assert Lower(d) == d;
    assert IsCleanEntry(d);
    AdminEmailsOfList([d]);
    assert AdminEmails("") == AdminList(Join([d], ','));
  }

  /** What `authenticateAdmin` does once the token has been verified. */
  datatype Gate = Pass | Forbidden | NotConfigured

  function AdminGate(admins: seq<string>, production: bool, email: Option<string>): (g: Gate)
    ensures admins == [] ==> g == (if production then NotConfigured else Pass)
    ensures admins != [] ==> (g == Pass <==> IsAdminEmail(email, admins)) && g != NotConfigured
  {
    if admins == [] then (if production then NotConfigured else Pass)
    else if !IsAdminEmail(email, admins) then Forbidden
    else Pass
  }

  /**
   * An ADMIN_EMAILS made only of commas and white space leaves the list
   * empty: outside production every signed-in user then passes the gate.
   */
  lemma BlankAdminListOpensGate(env: string, email: Option<string>)
    requires env != []
    requires forall k :: 0 <= k < |env| ==> env[k] == ',' || IsSpace(env[k])
    ensures AdminGate(AdminEmails(env), false, email) == Pass
    ensures AdminGate(AdminEmails(env), true, email) == NotConfigured
  {
    EntriesOfBlank(env, ',');
  }

  // ----- CORS -----

  /** ALLOWED_ORIGINS: the comma-separated entries, trimmed, empty ones dropped. */
  function AllowedOrigins(env: string): (r: seq<string>)
    ensures forall k :: 0 <= k < |r| ==> r[k] != [] && IsTrimmed(r[k]) && ',' !in r[k]
  {
    Entries(env, ',')
  }

  /**
   * The `origin` callback: no origin, or an empty allow-list, is allowed;
   * otherwise only an origin on the list.
   */
  function CorsAllows(origin: Option<string>, allowed: seq<string>): (b: bool)
    ensures OrEmpty(origin) == [] ==> b
    ensures allowed == [] ==> b
    ensures OrEmpty(origin) != [] && allowed != [] ==> (b <==> OrEmpty(origin) in allowed)
  {
    if OrEmpty(origin) == [] then true
    else allowed == [] || OrEmpty(origin) in allowed
  }

  /** An unset or blank ALLOWED_ORIGINS lets every origin through. */
  lemma BlankOriginsAllowAll(env: string, origin: Option<string>)
    requires forall k :: 0 <= k < |env| ==> env[k] == ',' || IsSpace(env[k])
    ensures CorsAllows(origin, AllowedOrigins(env))
  {
    EntriesOfBlank(env, ',');
  }

  /** A configured list of origins admits exactly its members. */
  lemma ListedOriginsExactly(list: seq<string>, origin: string)
    requires |list| >= 1
    requires forall k :: 0 <= k < |list| ==> list[k] != [] && IsTrimmed(list[k]) && ',' !in list[k]
    requires origin != []
    ensures CorsAllows(Some(origin), AllowedOrigins(Join(list, ','))) <==> origin in list
  {
    EntriesOfJoin(list, ',');
  }

  // ----- the overview limit -----

  /** The longest prefix of `s` made of digits. */
  function LeadingDigits(s: string): (d: string)
    ensures AllDigits(d) && d <= s
    ensures |d| < |s| ==> !IsDigit(s[|d|])
  {
    if s == [] || !IsDigit(s[0]) then [] else [s[0]] + LeadingDigits(s[1..])
  }

  /**
   * `parseInt(value, 10)`: leading white space is skipped, one sign is
   * read, then the longest run of digits; with no digits the result is NaN
   * (`None`). A missing query parameter reads as the text "undefined".
   */
  function ParseInt(value: Option<string>): (r: Option<int>)
    ensures value.None? ==> r.None?
  {
    if value.None? then None else ParseSigned(TrimStart(value.value))
  }

  /** What `parseInt` reads once the white space is skipped: one sign, then the digits. */
  function ParseSigned(s: string): Option<int> {
    var negative := |s| > 0 && s[0] == '-';
    var body := if |s| > 0 && (s[0] == '-' || s[0] == '+') then s[1..] else s;
    var z := LeadingDigits(body);
    if z == [] then None
    else
      var v: int := DecimalValue(z);
      Some(if negative then -v else v)
  }

  /**
   * What `parseInt` reads from any text: after the leading white space, an
   * optional sign and the longest run of digits, with whatever follows
   * ignored; without digits the result is NaN.
   */
  lemma ParseIntOfParts(ws: string, sign: string, digits: string, rest: string)
    requires AllSpace(ws)
    requires sign == "" || sign == "+" || sign == "-"
    requires AllDigits(digits)
    requires rest == [] || !IsDigit(rest[0])
    requires sign == "" && digits == [] && rest != [] ==> !IsSpace(rest[0]) && rest[0] != '+' && rest[0] != '-'
    ensures ParseInt(Some(ws + sign + digits + rest)) ==
      if digits == [] then None
      else if sign == "-" then Some(-(DecimalValue(digits) as int))
      else Some(DecimalValue(digits))
  {
    var t := sign + (digits + rest);
    assert ws + sign + digits + rest == ws + t;
    if sign != "" {
      assert t[0] == sign[0];
    } else if digits != [] {
      assert t[0] == digits[0];
    } else {
      assert t == rest;
    }
    ParseIntAfterSpace(ws, t);
    ParseSignedOf(sign, digits, rest);
  }

  /** Leading white space is skipped. */
  lemma ParseIntAfterSpace(ws: string, t: string)
    requires AllSpace(ws) && (t == [] || !IsSpace(t[0]))
    ensures ParseInt(Some(ws + t)) == ParseSigned(t)
  {
    TrimStartAfterSpace(ws, t);
  }

  lemma ParseSignedOf(sign: string, digits: string, rest: string)
    requires sign == "" || sign == "+" || sign == "-"
    requires AllDigits(digits)
    requires rest == [] || !IsDigit(rest[0])
    requires sign == "" && digits == [] && rest != [] ==> rest[0] != '+' && rest[0] != '-'
    ensures ParseSigned(sign + (digits + rest)) ==
      if digits == [] then None
      else if sign == "-" then Some(-(DecimalValue(digits) as int))
      else Some(DecimalValue(digits))
  {
    if sign == "" {
      assert sign + (digits + rest) == digits + rest;
      ParseUnsigned(digits, rest);
    } else if sign == "-" {
      ParseAfterSign('-', digits, rest);
    } else {
      ParseAfterSign('+', digits, rest);
    }
  }

  lemma ParseUnsigned(digits: string, rest: string)
    requires AllDigits(digits) && (rest == [] || !IsDigit(rest[0]))
    requires digits == [] && rest != [] ==> rest[0] != '+' && rest[0] != '-'
    ensures ParseSigned(digits + rest) == if digits == [] then None else Some(DecimalValue(digits))
  {
    var s := digits + rest;
    if digits != [] {
      assert s[0] == digits[0];
    } else {
      assert s == rest;
    }
    LeadingDigitsOfPrefix(digits, rest);
  }

  lemma ParseAfterSign(c: char, digits: string, rest: string)
    requires c == '+' || c == '-'
    requires AllDigits(digits) && (rest == [] || !IsDigit(rest[0]))
    ensures ParseSigned([c] + (digits + rest)) ==
      if digits == [] then None
      else if c == '-' then Some(-(DecimalValue(digits) as int))
      else Some(DecimalValue(digits))
  {
    var s := [c] + (digits + rest);
    assert s[0] == c && s[1..] == digits + rest;
    LeadingDigitsOfPrefix(digits, rest);
  }

  /** `Math.min(Math.max(n, 1), 200)`. */
  function Clamp(n: int): int {
    if n < 1 then 1 else if n > 200 then 200 else n
  }

  /** The `limit` of the admin overview: a clamped number, 25 when none is given. */
  function OverviewLimit(limit: Option<string>): (n: int)
    ensures 1 <= n <= 200
    ensures ParseInt(limit).None? ==> n == 25
    ensures ParseInt(limit).Some? && 1 <= ParseInt(limit).value <= 200 ==> n == ParseInt(limit).value
    ensures ParseInt(limit).Some? && ParseInt(limit).value > 200 ==> n == 200
    ensures ParseInt(limit).Some? && ParseInt(limit).value < 1 ==> n == 1
  {
    var p := ParseInt(limit);
    if p.Some? then Clamp(p.value) else 25
  }

  lemma {:induction false} LeadingDigitsOfDigits(s: string)
    requires AllDigits(s)
    ensures LeadingDigits(s) == s
    decreases |s|
  {
    if s != [] {
      LeadingDigitsOfDigits(s[1..]);
    }
  }

  /** `parseInt` reads a decimal numeral back as its value. */
  lemma ParseIntOfDecimal(n: nat)
    ensures ParseInt(Some(Decimal(n))) == Some(n)
  {
    var d := Decimal(n);
    TrimStartOfUntrimmed(d);
    assert d[0] != '-' && d[0] != '+';
    LeadingDigitsOfDigits(d);
    DecimalValueOfDecimal(n);
    assert ParseInt(Some(d)) == Some(DecimalValue(d));
  }

  /** A limit written in decimal is used as is between 1 and 200, and capped at 200 above. */
  lemma LimitOfDecimal(n: nat)
    ensures OverviewLimit(Some(Decimal(n))) == Clamp(n)
  {
    ParseIntOfDecimal(n);
  }

  /** Feeding a chosen limit back in chooses it again. */
  lemma LimitIdempotent(limit: Option<string>)
    ensures OverviewLimit(Some(Decimal(OverviewLimit(limit)))) == OverviewLimit(limit)
  {
    LimitOfDecimal(OverviewLimit(limit));
  }

  /** Trailing text after the number is ignored (`parseInt` stops at the first non-digit). */
  lemma LimitIgnoresSuffix(n: nat, suffix: string)
    requires suffix == [] || !IsDigit(suffix[0])
    ensures OverviewLimit(Some(Decimal(n) + suffix)) == Clamp(n)
  {
    var d := Decimal(n);
    var s := d + suffix;
    assert s[0] == d[0];
    TrimStartOfUntrimmed(s);
    LeadingDigitsOfDigits(d);
    LeadingDigitsOfPrefix(d, suffix);
    DecimalValueOfDecimal(n);
  }

  lemma {:induction false} LeadingDigitsOfPrefix(d: string, suffix: string)
    requires AllDigits(d)
    requires suffix == [] || !IsDigit(suffix[0])
    ensures LeadingDigits(d + suffix) == d
    decreases |d|
  {
    if d == [] {
      assert d + suffix == suffix;
    } else {
      assert (d + suffix)[1..] == d[1..] + suffix;
      LeadingDigitsOfPrefix(d[1..], suffix);
    }
  }

  /** A negative number, or text that does not start with a number, gives 1 and 25. */
  lemma LimitOfNegative(n: nat)
    ensures OverviewLimit(Some("-" + Decimal(n))) == 1
  {
    var d := Decimal(n);
    var s := "-" + d;
    TrimStartOfUntrimmed(s);
    assert s[0] == '-' && s[1..] == d;
    LeadingDigitsOfDigits(d);
    var v := -(DecimalValue(d) as int);
    assert ParseInt(Some(s)) == Some(v);
  }

  lemma LimitOfWord(w: string)
    requires w != [] && !IsSpace(w[0]) && !IsDigit(w[0]) && w[0] != '-' && w[0] != '+'
    ensures OverviewLimit(Some(w)) == 25
  {
    TrimStartOfUntrimmed(w);
    assert LeadingDigits(w) == [];
    assert ParseInt(Some(w)) == None;
  }

  // ----- password reset -----

  const RequiredError := "Email, phone and new password are required"
  const ShortPasswordError := "Password must be at least 6 characters"
  const MismatchError := "Invalid email or phone"

  datatype ResetOutcome = Rejected(error: string) | Reset(email: string)

  /**
   * The checks of `POST /api/reset-password` before the new password is
   * hashed and stored. `phones` maps each stored e-mail address to the
   * user's stored phone (`None` when the column is empty).
   */
  function ResetPasswordCheck(email: Option<string>, phone: Option<string>, newPassword: Option<string>,
                              phones: map<string, Option<string>>): (r: ResetOutcome)
    ensures r.Reset? ==> r.email == NormalizeEmail(email) && r.email in phones
  {
    var e := NormalizeEmail(email);
    var p := Digits(OrEmpty(phone));
    var pw := OrEmpty(newPassword);
    if e == [] || p == [] || pw == [] then Rejected(RequiredError)
    else if Utf16Length(pw) < 6 then Rejected(ShortPasswordError)
    else if e !in phones then Rejected(MismatchError)
    else
      var stored := Digits(OrEmpty(phones[e]));
      if stored == [] || stored != p then Rejected(MismatchError)
      else Reset(e)
  }

  /**
   * A reset goes through exactly when the address is non-blank and stored, both phones
   * have the same non-empty digit string, and the password has 6 or more
   * UTF-16 code units (`String(newPassword).length`).
   */
  lemma ResetIff(email: Option<string>, phone: Option<string>, newPassword: Option<string>,
                 phones: map<string, Option<string>>)
    ensures ResetPasswordCheck(email, phone, newPassword, phones).Reset?
        <==> (&& NormalizeEmail(email) != []
              && NormalizeEmail(email) in phones
              && Digits(OrEmpty(phone)) != []
              && Digits(OrEmpty(phones[NormalizeEmail(email)])) == Digits(OrEmpty(phone))
              && Utf16Length(OrEmpty(newPassword)) >= 6)
  {
  }

  /** Only the digits of the supplied phone matter: punctuation, spaces and `+` are ignored. */
  lemma ResetIgnoresPhoneFormatting(email: Option<string>, p1: string, p2: string,
                                    newPassword: Option<string>, phones: map<string, Option<string>>)
    requires Digits(p1) == Digits(p2)
    ensures ResetPasswordCheck(email, Some(p1), newPassword, phones)
         == ResetPasswordCheck(email, Some(p2), newPassword, phones)
  {
  }

  /** A password shorter than 6 code units is refused whatever else is sent. */
  lemma ShortPasswordRefused(email: Option<string>, phone: Option<string>, newPassword: Option<string>,
                             phones: map<string, Option<string>>)
    requires Utf16Length(OrEmpty(newPassword)) < 6
    ensures ResetPasswordCheck(email, phone, newPassword, phones).Rejected?
  {
  }

  /** A stored phone without digits never matches. */
  lemma EmptyStoredPhoneNeverMatches(email: Option<string>, phone: Option<string>, newPassword: Option<string>,
                                     phones: map<string, Option<string>>)
    requires NormalizeEmail(email) in phones && Digits(OrEmpty(phones[NormalizeEmail(email)])) == []
    ensures ResetPasswordCheck(email, phone, newPassword, phones).Rejected?
  {
  }
}
