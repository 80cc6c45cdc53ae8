/**
 * The in-browser demo API of the public client (`demoApi` in
 * public/app.js). It answers the site's requests when no backend is
 * configured, keeping users, bookings and payments in three stored arrays
 * that its routes append to and update in place.
 *
 * The pure functions below say what each route answers and what the
 * arrays become; the `DemoStore` class holds the arrays and implements the
 * routes step by step, each method proved to agree with its function.
 */
module DemoApi {
  import opened Text
  import opened Base
  import Contact
  import opened Search
  import Client

  // ----- requests and records -----

  /** A parsed JSON request body; only string members are modelled. */
  type Body = map<string, string>

  /** `body.key || ''`. */
  function Field(body: Body, key: string): string {
    if key in body then body[key] else ""
  }

  /** `body.key`, undefined when absent. */
  function Member(body: Body, key: string): Option<string> {
    if key in body then Some(body[key]) else None
  }

  /** The clock when a request is handled: `Date.now()` and `new Date().toISOString()`. */
  datatype Clock = Clock(now: nat, iso: string)

  datatype User = User(id: int, name: string, email: string, phone: string, password: string, createdAt: int)

  datatype Booking = Booking(
    id: int, name: string, email: string, phone: string,
    service: string, message: string, status: string, createdAt: int)

  datatype Payment = Payment(
    id: string, productId: Option<string>, productName: Option<string>, amount: Option<string>,
    currency: string, status: string, createdAt: int)

  /** A user as the admin overview lists it: the password is not part of it. */
  datatype UserRow = UserRow(id: int, name: string, email: string, phone: string, createdAt: int)

  datatype Reply =
    | Error(error: Wording)
    | Health
    | Session(message: Wording, token: string, userId: int, name: string, email: string)
    | Message(message: Wording)
    | BookingCreated(bookingId: int, bookingStatus: string)
    | PaymentMade(payment: Payment)
    | Overview(totalUsers: nat, totalBookings: nat, totalPayments: nat,
               users: seq<UserRow>, bookings: seq<Booking>, payments: seq<Payment>)
    | BookingUpdated(booking: Booking)
    | ChatReply(reply: Wording)

  /** What the handler gives back: a response, or an exception it throws instead. */
  datatype Response = Response(status: nat, reply: Reply) | Threw

  /** A response with status 200. */
  predicate Succeeded(r: Response) {
    r.Response? && r.status == 200
  }

  /** The three stored arrays. */
  datatype Store = Store(users: seq<User>, bookings: seq<Booking>, payments: seq<Payment>)

  /** The fixed texts the demo API answers with, by what they say. */
  datatype Wording =
    | RegisterRequired | InvalidEmailFormat | ShortPassword | UserExists | InvalidCredentials
    | ResetRequired | InvalidEmailOrPhone | BookingRequired | AccessDenied | InvalidBookingId
    | InvalidBookingStatus | BookingNotFound | NotInDemo
    | Registered | LoggedIn | PasswordReset | DemoNotified | ChatAnswer | ChatPrompt

  /** The exact text of each wording. */
  function Says(w: Wording): string {
    match w
    case RegisterRequired => "Name, valid email, password and phone with country code are required"
    case InvalidEmailFormat => "Invalid email format"
    case ShortPassword => "Password must be at least 6 characters"
    case UserExists => "User already exists"
    case InvalidCredentials => "Invalid credentials"
    case ResetRequired => "Email, phone and new password are required"
    case InvalidEmailOrPhone => "Invalid email or phone"
    case BookingRequired => "Name, valid email and phone with country code are required"
    case AccessDenied => "Access denied"
    case InvalidBookingId => "Invalid booking id"
    case InvalidBookingStatus => "Invalid booking status"
    case BookingNotFound => "Booking not found"
    case NotInDemo => "Endpoint not available in demo mode"
    case Registered => "Registration successful (demo mode)"
    case LoggedIn => "Login successful (demo mode)"
    case PasswordReset => "Password reset successful (demo mode)"
    case DemoNotified => "Notification sent (demo mode)"
    case ChatAnswer => "Demo mode: thank you for your message. Backend chat will work after API deployment."
    case ChatPrompt => "Demo mode: ask me anything about programs."
  }

  // ----- looking users up -----

  function HasEmail(email: string): User -> bool {
    (u: User) => u.email == email
  }

  predicate EmailTaken(users: seq<User>, email: string) {
    FirstIndex(users, HasEmail(email)) != -1
  }

  // ----- request fields as the routes read them -----

  /** `(body.name || '').trim()`. */
  function NameOf(body: Body): string {
    Trim(Field(body, "name"))
  }

  /** `(body.email || '').trim().toLowerCase()`: already trimmed and lower case. */
  function EmailOf(body: Body): (e: string)
    ensures IsTrimmed(e) && Lower(e) == e
  {
    LowerIdempotent(Trim(Field(body, "email")));
    TrimLowerCommute(Field(body, "email"));
    Lower(Trim(Field(body, "email")))
  }

  /** `normalizePhone(body.phone)`. */
  function PhoneOf(body: Body): (p: string)
    ensures p == [] || Contact.IsCanonicalPhone(p)
  {
    Contact.NormalizePhone(Field(body, "phone"))
  }

  /** The fields `/api/register` reads. */
  datatype Signup = Signup(name: string, email: string, password: string, phone: string)

  function SignupOf(body: Body): Signup {
    Signup(NameOf(body), EmailOf(body), Field(body, "password"), PhoneOf(body))
  }

  /** The fields `/api/login` reads. */
  datatype Credentials = Credentials(email: string, password: string)

  function CredentialsOf(body: Body): Credentials {
    Credentials(EmailOf(body), Field(body, "password"))
  }

  /** The fields `/api/reset-password` reads. */
  datatype ResetForm = ResetForm(email: string, phone: string, newPassword: string)

  function ResetFormOf(body: Body): ResetForm {
    ResetForm(EmailOf(body), PhoneOf(body), Field(body, "newPassword"))
  }

  /** The fields `/api/book-consultation` reads; `service || 'consultation'`. */
  datatype BookingForm = BookingForm(name: string, email: string, phone: string, service: string, message: string)

  function BookingFormOf(body: Body): BookingForm {
    var service := if Field(body, "service") == [] then "consultation" else Field(body, "service");
    BookingForm(NameOf(body), EmailOf(body), PhoneOf(body), service, Field(body, "message"))
  }

  /**
   * How the token text becomes base64. The site calls `btoa` on it
   * directly, and `btoa` throws on any character above U+00FF;
   * `Utf8First` encodes the text as UTF-8 before (`btoa(unescape(
   * encodeURIComponent(text)))`), which never throws. The base64 alphabet
   * is not part of this model: `base64` stands for it on Latin-1 text.
   */
  datatype TokenEncoding = DirectBtoa(base64: string -> string) | Utf8First(base64: string -> string)

  /** The encoded text, or `None` where the encoding throws. */
  function Encode(enc: TokenEncoding, text: string): (r: Option<string>)
    ensures r.Some? <==> enc.Utf8First? || Latin1(text)
  {
    match enc
    case DirectBtoa(base64) => if Latin1(text) then Some(base64(text)) else None
    case Utf8First(base64) => Some(base64(Utf8(text)))
  }

  /** A token can be issued for `email`: with `btoa` alone, only when the address is Latin-1. */
  predicate TokenFor(enc: TokenEncoding, email: string) {
    enc.Utf8First? || Latin1(email)
  }

  /** `'demo-' + btoa(email + ':' + Date.now())`, or `None` where `btoa` throws. */
  function DemoToken(email: string, clock: Clock, enc: TokenEncoding): (t: Option<string>)
    ensures t.Some? <==> TokenFor(enc, email)
    ensures t.Some? ==> StartsWith(t.value, "demo-")
  {
    var stamp := Decimal(clock.now);
    assert Latin1(stamp);
    Latin1Append(email, ":");
    Latin1Append(email + ":", stamp);
    match Encode(enc, email + ":" + stamp)
    case None => None
    case Some(b) => Some("demo-" + b)
  }

  /** The 200 session reply, or `Threw` when no token can be made for the address. */
  function SessionFor(message: Wording, u: User, clock: Clock, enc: TokenEncoding): (r: Response)
    ensures r.Threw? <==> !TokenFor(enc, u.email)
    ensures r.Response? ==> r.status == 200 && r.reply.Session? && r.reply.email == u.email
  {
    match DemoToken(u.email, clock, enc)
    case None => Threw
    case Some(token) => Response(200, Session(message, token, u.id, u.name, u.email))
  }

  /** The `Authorization` header of a signed-in demo user. */
  predicate DemoAuthorized(auth: string) {
    auth != [] && StartsWith(auth, "Bearer demo-")
  }

  // ----- what the stored arrays hold -----

  /**
   * A stored user passed the registration checks: the address is stored
   * trimmed and lower-cased, so `isValidEmail` accepting it means the
   * address itself has the `local@domain.tld` shape.
   */
  ghost predicate GoodUser(u: User) {
    && u.name != []
    && Contact.MatchesEmailPattern(u.email) && Lower(u.email) == u.email
    && Contact.IsCanonicalPhone(u.phone)
    && Utf16Length(u.password) >= 6
  }

  ghost predicate ValidUsers(users: seq<User>) {
    && (forall k :: 0 <= k < |users| ==> GoodUser(users[k]))
    && (forall i, j :: 0 <= i < j < |users| ==> users[i].email != users[j].email)
  }

  /** The statuses an admin may give a booking. */
  predicate IsAllowedStatus(s: string) {
    s == "pending" || s == "new" || s == "in_progress" || s == "done" || s == "cancelled"
  }

  ghost predicate GoodBooking(b: Booking) {
    && b.name != []
    && Contact.MatchesEmailPattern(b.email)
    && Contact.IsCanonicalPhone(b.phone)
    && IsAllowedStatus(b.status)
  }

  /** Bookings are numbered 1, 2, 3, ... in the order they were made. */
  predicate Numbered(bookings: seq<Booking>) {
    forall k :: 0 <= k < |bookings| ==> bookings[k].id == k + 1
  }

  ghost predicate ValidBookings(bookings: seq<Booking>) {
    Numbered(bookings) && forall k :: 0 <= k < |bookings| ==> GoodBooking(bookings[k])
  }

  predicate ValidPayments(payments: seq<Payment>) {
    forall k :: 0 <= k < |payments| ==> payments[k].status == "completed"
  }

  /** What the routes keep true of the arrays they write. */
  ghost predicate ValidStore(s: Store) {
    ValidUsers(s.users) && ValidBookings(s.bookings) && ValidPayments(s.payments)
  }

  /** An address `isValidEmail` accepts, in the form the routes store it, has the shape itself. */
  lemma StoredEmailShape(e: string)
    requires IsTrimmed(e) && Lower(e) == e && Contact.IsValidEmail(e)
    ensures Contact.MatchesEmailPattern(e)
  {
    TrimOfTrimmed(e);
  }

  lemma ValidEmailNotEmpty(e: string)
    requires Contact.IsValidEmail(e)
    ensures e != []
  {
    Contact.ValidEmailHasOneAt(e);
  }

  lemma EmailTakenIff(users: seq<User>, email: string)
    ensures EmailTaken(users, email) <==> exists k :: 0 <= k < |users| && users[k].email == email
  {
    FirstIndexIsFirst(users, HasEmail(email));
    if k :| 0 <= k < |users| && users[k].email == email {
      assert HasEmail(email)(users[k]);
    }
  }

  lemma ValidUsersAppend(users: seq<User>, u: User)
    requires ValidUsers(users) && GoodUser(u)
    requires forall k :: 0 <= k < |users| ==> users[k].email != u.email
    ensures ValidUsers(users + [u])
  {
    var r := users + [u];
    assert forall k :: 0 <= k < |users| ==> r[k] == users[k];
  }

  lemma ValidUsersNewPassword(users: seq<User>, i: int, password: string)
    requires ValidUsers(users) && 0 <= i < |users| && Utf16Length(password) >= 6
    ensures ValidUsers(users[i := users[i].(password := password)])
  {
  }

  lemma ValidBookingsAppend(bookings: seq<Booking>, b: Booking)
    requires ValidBookings(bookings) && GoodBooking(b) && b.id == |bookings| + 1
    ensures ValidBookings(bookings + [b])
  {
    var r := bookings + [b];
    assert forall k :: 0 <= k < |bookings| ==> r[k] == bookings[k];
  }

  lemma ValidBookingsUpdate(bookings: seq<Booking>, i: int, status: string, message: string)
    requires ValidBookings(bookings) && 0 <= i < |bookings| && IsAllowedStatus(status)
    ensures ValidBookings(bookings[i := bookings[i].(status := status, message := message)])
  {
  }

  // ----- POST /api/register -----

  /** The first check a registration fails, or `None`. */
  function RegisterError(users: seq<User>, f: Signup): Option<Wording> {
    if f.name == [] || f.email == [] || f.password == [] || f.phone == [] then Some(RegisterRequired)
    else if !Contact.IsValidEmail(f.email) then Some(InvalidEmailFormat)
    else if Utf16Length(f.password) < 6 then Some(ShortPassword)
    else if EmailTaken(users, f.email) then Some(UserExists)
    else None
  }

  function NewUser(f: Signup, clock: Clock): User {
    User(clock.now, f.name, f.email, f.phone, f.password, clock.now)
  }

  function RegisterUsers(users: seq<User>, f: Signup, clock: Clock): seq<User> {
    if RegisterError(users, f).None? then users + [NewUser(f, clock)] else users
  }

  /**
   * A session for the new user when every check passes and a token can be
   * made, the exception when no token can be made, and otherwise 400 with
   * the first failed check.
   */
  function RegisterReply(users: seq<User>, f: Signup, clock: Clock, enc: TokenEncoding): (r: Response)
    ensures Succeeded(r) <==> RegisterError(users, f).None? && TokenFor(enc, f.email)
    ensures r.Threw? <==> RegisterError(users, f).None? && !TokenFor(enc, f.email)
    ensures Succeeded(r) ==> r.reply.Session? && r.reply.message == Registered && r.reply.email == f.email
    ensures RegisterError(users, f).Some? ==> r == Response(400, Error(RegisterError(users, f).value))
  {
    match RegisterError(users, f)
    case Some(e) => Response(400, Error(e))
    case None => SessionFor(Registered, NewUser(f, clock), clock, enc)
  }

  /**
   * A registration is accepted exactly when the name is not blank, the
   * e-mail address is well formed, the phone normalises, the password has
   * 6 or more UTF-16 code units and no stored user has the address.
   */
  lemma RegisterAcceptedIff(users: seq<User>, f: Signup)
    ensures RegisterError(users, f).None? <==>
      && f.name != [] && f.phone != []
      && Contact.IsValidEmail(f.email)
      && Utf16Length(f.password) >= 6
      && forall k :: 0 <= k < |users| ==> users[k].email != f.email
  {
    RegisterChecks(users, f);
    EmailTakenIff(users, f.email);
  }

  lemma RegisterChecks(users: seq<User>, f: Signup)
    ensures RegisterError(users, f).None? <==>
      && f.name != [] && f.phone != []
      && Contact.IsValidEmail(f.email)
      && Utf16Length(f.password) >= 6
      && !EmailTaken(users, f.email)
  {
    if Contact.IsValidEmail(f.email) {
      ValidEmailNotEmpty(f.email);
    }
  }

  /** An address as the routes store it: trimmed and lower case. */
  predicate CleanEmail(e: string) {
    IsTrimmed(e) && Lower(e) == e
  }

  /** A phone as the routes store it: canonical, or empty when it did not normalise. */
  predicate CleanPhone(p: string) {
    p == [] || Contact.IsCanonicalPhone(p)
  }

  /** A successful registration appends one good user and keeps the addresses distinct. */
  lemma RegisterKeepsValid(users: seq<User>, f: Signup, clock: Clock)
    requires ValidUsers(users) && CleanEmail(f.email) && CleanPhone(f.phone)
    ensures ValidUsers(RegisterUsers(users, f, clock))
  {
    if RegisterError(users, f).None? {
      RegisterAcceptedIff(users, f);
      var u := NewUser(f, clock);
      StoredEmailShape(f.email);
      assert GoodUser(u);
      ValidUsersAppend(users, u);
    }
  }

  // ----- POST /api/login -----

  /**
   * An unknown address and a wrong password get the same 400 answer; a
   * session is for the address asked for.
   */
  function LoginReply(users: seq<User>, c: Credentials, clock: Clock, enc: TokenEncoding): (r: Response)
    ensures r.Response? && !Succeeded(r) ==> r == Response(400, Error(InvalidCredentials))
    ensures Succeeded(r) ==> r.reply.Session? && r.reply.message == LoggedIn && r.reply.email == c.email
  {
    var i := FirstIndex(users, HasEmail(c.email));
    if i == -1 || users[i].password != c.password then Response(400, Error(InvalidCredentials))
    else SessionFor(LoggedIn, users[i], clock, enc)
  }

  /**
   * With distinct stored addresses, a login succeeds exactly when some
   * user has the (trimmed, lower-cased) address and the exact password and
   * a token can be made for the address; with such a user and no token,
   * the handler throws.
   */
  lemma LoginIff(users: seq<User>, c: Credentials, clock: Clock, enc: TokenEncoding)
    requires ValidUsers(users)
    ensures Succeeded(LoginReply(users, c, clock, enc)) <==>
      && (exists k :: 0 <= k < |users| && users[k].email == c.email && users[k].password == c.password)
      && TokenFor(enc, c.email)
    ensures LoginReply(users, c, clock, enc).Threw? <==>
      && (exists k :: 0 <= k < |users| && users[k].email == c.email && users[k].password == c.password)
      && !TokenFor(enc, c.email)
  {
    var i := FirstIndex(users, HasEmail(c.email));
    FirstIndexIsFirst(users, HasEmail(c.email));
    if k :| 0 <= k < |users| && users[k].email == c.email && users[k].password == c.password {
      assert HasEmail(c.email)(users[k]);
      assert i != -1 && users[i].email == c.email;
      assert i == k;
    }
  }

  /**
   * Whoever has just registered can log in with the same address and
   * password, whenever a token can be made for the address.
   */
  lemma RegisterThenLogin(users: seq<User>, f: Signup, clock: Clock, later: Clock, enc: TokenEncoding)
    requires RegisterError(users, f).None? && TokenFor(enc, f.email)
    ensures Succeeded(RegisterReply(users, f, clock, enc))
    ensures Succeeded(LoginReply(RegisterUsers(users, f, clock), Credentials(f.email, f.password), later, enc))
  {
    var u := NewUser(f, clock);
    RegisterAcceptedIff(users, f);
    assert forall k :: 0 <= k < |users| ==> !HasEmail(f.email)(users[k]);
    FirstIndexOfAppend(users, u, HasEmail(f.email));
    var t := RegisterUsers(users, f, clock);
    assert t == users + [u] && FirstIndex(t, HasEmail(f.email)) == |users|;
    assert t[|users|] == u;
    assert LoginReply(t, Credentials(f.email, f.password), later, enc) == SessionFor(LoggedIn, u, later, enc);
  }

  /**
   * As the site is written, an accepted registration whose address has a
   * character above U+00FF stores the user and then throws in `btoa`, so
   * no session is answered; registering again is refused as a taken
   * address, and logging in throws too.
   */
  lemma RegisterThrowsAfterStoring(s: Store, f: Signup, clock: Clock, later: Clock, base64: string -> string)
    requires RegisterError(s.users, f).None? && !Latin1(f.email)
    ensures RegisterStep(s, f, clock, DirectBtoa(base64)).1 == Threw
    ensures RegisterStep(s, f, clock, DirectBtoa(base64)).0.users == s.users + [NewUser(f, clock)]
    ensures RegisterError(RegisterStep(s, f, clock, DirectBtoa(base64)).0.users, f) == Some(UserExists)
    ensures LoginReply(RegisterStep(s, f, clock, DirectBtoa(base64)).0.users,
                       Credentials(f.email, f.password), later, DirectBtoa(base64)) == Threw
  {
    var t := s.users + [NewUser(f, clock)];
    RegisterAcceptedIff(s.users, f);
    RegisterChecks(t, f);
    EmailTakenIff(t, f.email);
    assert t[|s.users|].email == f.email;
    assert forall k :: 0 <= k < |s.users| ==> !HasEmail(f.email)(s.users[k]);
    FirstIndexOfAppend(s.users, NewUser(f, clock), HasEmail(f.email));
    assert LoginReply(t, Credentials(f.email, f.password), later, DirectBtoa(base64))
      == SessionFor(LoggedIn, NewUser(f, clock), later, DirectBtoa(base64));
  }

  /** `я@мир.рф` is an address the site accepts and `btoa` cannot encode. */
  lemma CyrillicAddressAccepted()
    ensures Contact.IsValidEmail("я@мир.рф") && !Latin1("я@мир.рф")
  {
    var e := "я@мир.рф";
    assert e[0] as int == 0x44F;
    TrimOfTrimmed(e);
    assert Lower(e) == e by {
      forall k | 0 <= k < |e| ensures Lower(e)[k] == e[k] {
        assert e[k] == '@' || e[k] == '.' || '\U{0430}' <= e[k] <= '\U{044F}';
      }
    }
    assert e[6..] == "рф";
    assert Contact.EmailSplitAt(e, 1, 5);
  }

  /**
   * With the token text encoded as UTF-8 first, every accepted
   * registration answers a session and the new user can log in, whatever
   * characters the address has.
   */
  lemma RegisterThenLoginUtf8(s: Store, f: Signup, clock: Clock, later: Clock, base64: string -> string)
    requires RegisterError(s.users, f).None?
    ensures Succeeded(RegisterStep(s, f, clock, Utf8First(base64)).1)
    ensures Succeeded(LoginReply(RegisterStep(s, f, clock, Utf8First(base64)).0.users,
                                 Credentials(f.email, f.password), later, Utf8First(base64)))
  {
    RegisterThenLogin(s.users, f, clock, later, Utf8First(base64));
  }

  // ----- POST /api/reset-password -----

  /** The user a reset applies to: same address and same normalised, non-empty phone. */
  function ResetTarget(email: string, phone: string): User -> bool {
    (u: User) =>
      var p := Contact.NormalizePhone(u.phone);
      u.email == email && p != [] && p == phone
  }

  function ResetIndex(users: seq<User>, f: ResetForm): int {
    FirstIndex(users, ResetTarget(f.email, f.phone))
  }

  function ResetError(users: seq<User>, f: ResetForm): Option<Wording> {
    if f.email == [] || f.phone == [] || f.newPassword == [] then Some(ResetRequired)
    else if Utf16Length(f.newPassword) < 6 then Some(ShortPassword)
    else if ResetIndex(users, f) == -1 then Some(InvalidEmailOrPhone)
    else None
  }

  function ResetUsers(users: seq<User>, f: ResetForm): (r: seq<User>)
    ensures |r| == |users|
  {
    if ResetError(users, f).Some? then users
    else
      var i := ResetIndex(users, f);
      users[i := users[i].(password := f.newPassword)]
  }

  function ResetReply(users: seq<User>, f: ResetForm): Response {
    match ResetError(users, f)
    case Some(e) => Response(400, Error(e))
    case None => Response(200, Message(PasswordReset))
  }

  /**
   * A reset changes only the password of the first user whose address and
   * normalised phone both match; every other user and field is unchanged.
   */
  lemma ResetChangesOnePassword(users: seq<User>, f: ResetForm)
    requires ResetError(users, f).None?
    ensures var i := ResetIndex(users, f); var r := ResetUsers(users, f);
      && 0 <= i < |users|
      && users[i].email == f.email
      && Contact.NormalizePhone(users[i].phone) == f.phone
      && r[i] == users[i].(password := f.newPassword)
      && forall k :: 0 <= k < |users| && k != i ==> r[k] == users[k]
  {
    var i := ResetIndex(users, f);
    assert ResetTarget(f.email, f.phone)(users[i]);
  }

  lemma ResetKeepsValid(users: seq<User>, f: ResetForm)
    requires ValidUsers(users)
    ensures ValidUsers(ResetUsers(users, f))
  {
    if ResetError(users, f).None? {
      ValidUsersNewPassword(users, ResetIndex(users, f), f.newPassword);
    }
  }

  /** After a reset, the new password logs the user in, whenever a token can be made for the address. */
  lemma ResetThenLogin(users: seq<User>, f: ResetForm, clock: Clock, enc: TokenEncoding)
    requires ValidUsers(users) && ResetError(users, f).None? && TokenFor(enc, f.email)
    ensures Succeeded(LoginReply(ResetUsers(users, f), Credentials(f.email, f.newPassword), clock, enc))
  {
    var i := ResetIndex(users, f);
    var r := ResetUsers(users, f);
    ResetChangesOnePassword(users, f);
    ResetKeepsValid(users, f);
    LoginIff(r, Credentials(f.email, f.newPassword), clock, enc);
    assert r[i].email == f.email && r[i].password == f.newPassword;
  }

  // ----- POST /api/book-consultation -----

  function BookingError(f: BookingForm): Option<Wording> {
    if f.name == [] || f.email == [] || f.phone == [] then Some(BookingRequired)
    else if !Contact.IsValidEmail(f.email) then Some(InvalidEmailFormat)
    else None
  }

  function NewBooking(bookings: seq<Booking>, f: BookingForm, clock: Clock): Booking {
    Booking(|bookings| + 1, f.name, f.email, f.phone, f.service, f.message, "pending", clock.now)
  }

  function BookBookings(bookings: seq<Booking>, f: BookingForm, clock: Clock): seq<Booking> {
    if BookingError(f).None? then bookings + [NewBooking(bookings, f, clock)] else bookings
  }

  function BookReply(bookings: seq<Booking>, f: BookingForm): Response {
    match BookingError(f)
    case Some(e) => Response(400, Error(e))
    case None => Response(200, BookingCreated(|bookings| + 1, "pending"))
  }

  /** A booking is taken exactly when the name is not blank, the address is well formed and there is a phone. */
  lemma BookingAcceptedIff(f: BookingForm)
    ensures BookingError(f).None? <==> f.name != [] && f.phone != [] && Contact.IsValidEmail(f.email)
  {
    if Contact.IsValidEmail(f.email) {
      ValidEmailNotEmpty(f.email);
    }
  }

  /** A new booking gets the next number, starts `pending`, and keeps the numbering. */
  lemma BookKeepsValid(bookings: seq<Booking>, f: BookingForm, clock: Clock)
    requires ValidBookings(bookings) && CleanEmail(f.email) && CleanPhone(f.phone)
    ensures ValidBookings(BookBookings(bookings, f, clock))
  {
    if BookingError(f).None? {
      BookingAcceptedIff(f);
      var b := NewBooking(bookings, f, clock);
      StoredEmailShape(f.email);
      assert GoodBooking(b);
      ValidBookingsAppend(bookings, b);
    }
  }

  // ----- POST /api/payment -----

  function NewPayment(body: Body, clock: Clock): Payment {
    var currency := if Field(body, "currency") == [] then "KGS" else Field(body, "currency");
    Payment("PAY-" + Decimal(clock.now), Member(body, "productId"), Member(body, "productName"),
            Member(body, "amount"), currency, "completed", clock.now)
  }

  function PayPayments(payments: seq<Payment>, body: Body, auth: string, clock: Clock): seq<Payment> {
    if DemoAuthorized(auth) then payments + [NewPayment(body, clock)] else payments
  }

  function PayReply(body: Body, auth: string, clock: Clock): Response {
    if DemoAuthorized(auth) then Response(200, PaymentMade(NewPayment(body, clock)))
    else Response(401, Error(AccessDenied))
  }

  /**
   * An authorised payment appends exactly one `completed` payment, echoed
   * in the reply, whose id is `PAY-` followed by the time it was made and
   * whose currency falls back to `KGS`; without a demo token the answer is
   * 401 and nothing is written.
   */
  lemma PaymentRecorded(payments: seq<Payment>, body: Body, auth: string, clock: Clock)
    ensures !DemoAuthorized(auth) ==>
              PayPayments(payments, body, auth, clock) == payments
              && PayReply(body, auth, clock) == Response(401, Error(AccessDenied))
    ensures DemoAuthorized(auth) ==>
              |PayPayments(payments, body, auth, clock)| == |payments| + 1
              && PayPayments(payments, body, auth, clock)[..|payments|] == payments
    ensures DemoAuthorized(auth) ==>
              var p := PayPayments(payments, body, auth, clock)[|payments|];
              && PayReply(body, auth, clock) == Response(200, PaymentMade(p))
              && p.status == "completed" && p.createdAt == clock.now
              && |p.id| > 4 && p.id[..4] == "PAY-"
              && AllDigits(p.id[4..]) && DecimalValue(p.id[4..]) == clock.now
              && p.productId == Member(body, "productId") && p.productName == Member(body, "productName")
              && p.amount == Member(body, "amount")
              && p.currency == (if Field(body, "currency") == [] then "KGS" else Field(body, "currency"))
  {
    if DemoAuthorized(auth) {
      var p := NewPayment(body, clock);
      assert PayPayments(payments, body, auth, clock) == payments + [p];
      assert p.id[4..] == Decimal(clock.now);
      DecimalValueOfDecimal(clock.now);
    }
  }

  // ----- GET /api/admin/overview -----

  /** Every element is at least as new as every element after it. */
  predicate NewestFirst<T>(xs: seq<T>, key: T -> int) {
    forall i, j :: 0 <= i < j < |xs| ==> key(xs[i]) >= key(xs[j])
  }

  /** Insert `x` after every element at least as new, as a stable sort does. */
  function InsertByNewest<T>(x: T, xs: seq<T>, key: T -> int): (r: seq<T>)
    ensures |r| == |xs| + 1
    ensures multiset(r) == multiset(xs) + multiset{x}
    ensures r[0] == x || (xs != [] && r[0] == xs[0])
    decreases |xs|
  {
    if xs == [] then [x]
    else if key(xs[0]) >= key(x) then
      assert xs == [xs[0]] + xs[1..];
      [xs[0]] + InsertByNewest(x, xs[1..], key)
    else [x] + xs
  }

  lemma {:induction false} InsertKeepsNewestFirst<T>(x: T, xs: seq<T>, key: T -> int)
    requires NewestFirst(xs, key)
    ensures NewestFirst(InsertByNewest(x, xs, key), key)
    decreases |xs|
  {
    if xs != [] && key(xs[0]) >= key(x) {
      var rest := InsertByNewest(x, xs[1..], key);
      assert forall k :: 0 <= k < |xs[1..]| ==> xs[1..][k] == xs[k + 1];
      InsertKeepsNewestFirst(x, xs[1..], key);
      InsertBounded(x, xs[1..], key, key(xs[0]));
      var r := [xs[0]] + rest;
      forall i, j | 0 <= i < j < |r| ensures key(r[i]) >= key(r[j]) {
        assert r[j] == rest[j - 1];
        if i > 0 {
          assert r[i] == rest[i - 1];
        }
      }
    } else if xs != [] {
      var r := [x] + xs;
      assert forall i, j :: 1 <= i < j < |r| ==> r[i] == xs[i - 1] && r[j] == xs[j - 1];
    }
  }

  /** Inserting never brings in a key above the largest of `x` and `xs`. */
  lemma {:induction false} InsertBounded<T>(x: T, xs: seq<T>, key: T -> int, top: int)
    requires key(x) <= top
    requires forall k :: 0 <= k < |xs| ==> key(xs[k]) <= top
    ensures forall k :: 0 <= k <= |xs| ==> key(InsertByNewest(x, xs, key)[k]) <= top
    decreases |xs|
  {
    var r := InsertByNewest(x, xs, key);
    if xs != [] && key(xs[0]) >= key(x) {
      var rest := InsertByNewest(x, xs[1..], key);
      assert forall k :: 0 <= k < |xs[1..]| ==> xs[1..][k] == xs[k + 1];
      InsertBounded(x, xs[1..], key, top);
      assert r == [xs[0]] + rest;
      forall k | 1 <= k < |r| ensures key(r[k]) <= top {
        assert r[k] == rest[k - 1] && key(rest[k - 1]) <= top;
      }
    } else if xs != [] {
      assert r == [x] + xs;
      forall k | 1 <= k < |r| ensures key(r[k]) <= top {
        assert r[k] == xs[k - 1];
      }
    }
  }

  /** `slice().sort((a, b) => b.createdAt - a.createdAt)`: newest first, ties in stored order. */
  function SortByNewest<T>(xs: seq<T>, key: T -> int): (r: seq<T>)
    ensures |r| == |xs|
    ensures multiset(r) == multiset(xs)
    decreases |xs|
  {
    if xs == [] then []
    else
      var front := xs[..|xs| - 1];
      assert xs == front + [xs[|xs| - 1]];
      InsertByNewest(xs[|xs| - 1], SortByNewest(front, key), key)
  }

  /** The sort leaves the array newest first and holds exactly the same elements. */
  lemma {:induction false} SortByNewestSorted<T>(xs: seq<T>, key: T -> int)
    ensures NewestFirst(SortByNewest(xs, key), key)
    ensures multiset(SortByNewest(xs, key)) == multiset(xs)
    decreases |xs|
  {
    if xs != [] {
      var front := xs[..|xs| - 1];
      SortByNewestSorted(front, key);
      InsertKeepsNewestFirst(xs[|xs| - 1], SortByNewest(front, key), key);
    }
  }

  /** `slice(0, n)`. */
  function Take<T>(xs: seq<T>, n: nat): (r: seq<T>)
    ensures |r| == if |xs| <= n then |xs| else n
    ensures r <= xs
  {
    if |xs| <= n then xs else xs[..n]
  }

  function RowOf(u: User): UserRow {
    UserRow(u.id, u.name, u.email, u.phone, u.createdAt)
  }

  function Rows(users: seq<User>): (r: seq<UserRow>)
    ensures |r| == |users| && forall k :: 0 <= k < |users| ==> r[k] == RowOf(users[k])
  {
    seq(|users|, k requires 0 <= k < |users| => RowOf(users[k]))
  }

  function RowTime(r: UserRow): int { r.createdAt }
  function BookingTime(b: Booking): int { b.createdAt }
  function PaymentTime(p: Payment): int { p.createdAt }

  function OverviewReply(s: Store, auth: string): Response {
    if !DemoAuthorized(auth) then Response(401, Error(AccessDenied))
    else
      Response(200, Overview(
        |s.users|, |s.bookings|, |s.payments|,
        Take(SortByNewest(Rows(s.users), RowTime), 200),
        Take(SortByNewest(s.bookings, BookingTime), 200),
        Take(SortByNewest(s.payments, PaymentTime), 200)))
  }

  /**
   * `o` lists the `n` newest of `xs`, newest first: as many as there are
   * up to `n`, each taken from `xs` no more often than it is there, and
   * every record left out no newer than any listed one.
   */
  ghost predicate ListsNewest<T>(o: seq<T>, xs: seq<T>, key: T -> int, n: nat) {
    && |o| == (if |xs| <= n then |xs| else n)
    && NewestFirst(o, key)
    && multiset(o) <= multiset(xs)
    && (forall x, k :: x in multiset(xs) - multiset(o) && 0 <= k < |o| ==> key(x) <= key(o[k]))
  }

  /**
   * The overview counts every record and lists the 200 newest users,
   * bookings and payments, newest first; every listed booking is stored,
   * and with 200 or fewer stored every one of them is listed.
   */
  lemma OverviewLists(s: Store, auth: string)
    requires DemoAuthorized(auth)
    ensures var o := OverviewReply(s, auth).reply;
      && o.Overview?
      && o.totalUsers == |s.users| && o.totalBookings == |s.bookings| && o.totalPayments == |s.payments|
      && |o.users| <= 200 && |o.bookings| <= 200 && |o.payments| <= 200
      && ListsNewest(o.users, Rows(s.users), RowTime, 200)
      && ListsNewest(o.bookings, s.bookings, BookingTime, 200)
      && ListsNewest(o.payments, s.payments, PaymentTime, 200)
      && (forall k :: 0 <= k < |o.bookings| ==> o.bookings[k] in s.bookings)
      && (|s.bookings| <= 200 ==> multiset(o.bookings) == multiset(s.bookings))
  {
    NewestListed(Rows(s.users), RowTime, 200);
    NewestListed(s.bookings, BookingTime, 200);
    NewestListed(s.payments, PaymentTime, 200);
  }

  /**
   * The first `n` of a newest-first sort are the `n` newest, all from `xs`,
   * and all of `xs` when it has at most `n`.
   */
  lemma NewestListed<T>(xs: seq<T>, key: T -> int, n: nat)
    ensures var o := Take(SortByNewest(xs, key), n);
      && ListsNewest(o, xs, key, n)
      && (forall k :: 0 <= k < |o| ==> o[k] in xs)
      && (|xs| <= n ==> multiset(o) == multiset(xs))
  {
    var sorted := SortByNewest(xs, key);
    SortByNewestSorted(xs, key);
    var o := Take(sorted, n);
    var cut := |o|;
    assert o == sorted[..cut];
    PrefixMultiset(sorted, cut);
    NewestFirstPrefix(sorted, key, cut);
    forall k | 0 <= k < |o| ensures o[k] in xs {
      assert o[k] == sorted[k];
      assert sorted[k] in multiset(sorted);
    }
  }

  lemma PrefixMultiset<T>(s: seq<T>, cut: nat)
    requires cut <= |s|
    ensures multiset(s[..cut]) <= multiset(s)
    ensures multiset(s) - multiset(s[..cut]) == multiset(s[cut..])
  {
    assert s == s[..cut] + s[cut..];
  }

  /** In a newest-first sequence, nothing after position `cut` is newer than anything before it. */
  lemma NewestFirstPrefix<T>(s: seq<T>, key: T -> int, cut: nat)
    requires NewestFirst(s, key) && cut <= |s|
    ensures forall x, k :: x in multiset(s[cut..]) && 0 <= k < cut ==> key(x) <= key(s[..cut][k])
  {
    forall x, k | x in multiset(s[cut..]) && 0 <= k < cut ensures key(x) <= key(s[..cut][k]) {
      var j :| 0 <= j < |s[cut..]| && s[cut..][j] == x;
      assert s[cut + j] == x && s[..cut][k] == s[k];
    }
  }

  // ----- PATCH /api/admin/bookings/<id> -----

  /**
   * `Number(segment)` when that is a positive integer, for segments that
   * are an optionally signed decimal numeral with surrounding white space.
   */
  function PositiveId(segment: string): (id: Option<nat>)
    ensures id.Some? ==> id.value >= 1
  {
    var t := Trim(segment);
    var digits := if |t| > 0 && t[0] == '+' then t[1..] else t;
    if digits != [] && AllDigits(digits) && DecimalValue(digits) >= 1 then Some(DecimalValue(digits)) else None
  }

  /** `path.split('?')[0].split('/').pop()`. */
  function LastSegment(path: string): string {
    var beforeQuery := Split(path, '?')[0];
    var parts := Split(beforeQuery, '/');
    parts[|parts| - 1]
  }

  function BookingIdOf(path: string): Option<nat> {
    PositiveId(LastSegment(path))
  }

  /** The path the admin panel sends for booking `n` is read back as `n`. */
  lemma BookingIdOfPath(n: nat)
    requires n >= 1
    ensures BookingIdOf("/api/admin/bookings/" + Decimal(n)) == Some(n)
  {
    var d := Decimal(n);
    var a := "/api/admin/bookings";
    assert "/api/admin/bookings/" + d == a + ['/'] + d;
    assert '?' !in a;
    assert '?' !in d && '/' !in d by {
      assert forall k :: 0 <= k < |d| ==> IsDigit(d[k]);
    }
    LastSegmentAfterSlash(a, d);
    PositiveIdOfDecimal(n);
  }

  /** A path with no query ends in whatever follows its last `/`. */
  lemma LastSegmentAfterSlash(a: string, d: string)
    requires '?' !in a && '?' !in d && '/' !in d
    ensures LastSegment(a + ['/'] + d) == d
  {
    var path := a + ['/'] + d;
    assert '?' !in path;
    SplitWhole(path, '?');
    SplitLast(a, '/', d);
  }

  /** A positive decimal numeral is read back as its value. */
  lemma PositiveIdOfDecimal(n: nat)
    requires n >= 1
    ensures PositiveId(Decimal(n)) == Some(n)
  {
    var d := Decimal(n);
    TrimStartOfUntrimmed(d);
    TrimOfTrimmed(d);
    DecimalValueOfDecimal(n);
  }

  /** The admin tag a non-empty note is appended with. */
  function NoteLine(note: string, iso: string): string {
    "[ADMIN " + iso + "] " + note
  }

  /** The booking message after an update with `note` (already trimmed). */
  function NextMessage(existing: string, note: string, iso: string): string {
    if note == [] then existing
    else if existing == [] then NoteLine(note, iso)
    else existing + "\n" + NoteLine(note, iso)
  }

  /**
   * What an update reads: the booking number from the path,
   * `String(body.status || '').trim().toLowerCase()` and
   * `String(body.note || '').trim()`.
   */
  datatype PatchForm = PatchForm(id: Option<nat>, status: string, note: string)

  function PatchFormOf(path: string, body: Body): PatchForm {
    PatchForm(BookingIdOf(path), Lower(Trim(Field(body, "status"))), Trim(Field(body, "note")))
  }

  function HasId(id: int): Booking -> bool {
    (b: Booking) => b.id == id
  }

  /** The first failing check of an update: status code and message. */
  function PatchError(bookings: seq<Booking>, f: PatchForm, auth: string): Option<(nat, Wording)> {
    if !DemoAuthorized(auth) then Some((401, AccessDenied))
    else if f.id.None? || f.id.value < 1 then Some((400, InvalidBookingId))
    else if !IsAllowedStatus(f.status) then Some((400, InvalidBookingStatus))
    else if FirstIndex(bookings, HasId(f.id.value)) == -1 then Some((404, BookingNotFound))
    else None
  }

  function PatchBookings(bookings: seq<Booking>, f: PatchForm, auth: string, clock: Clock): (r: seq<Booking>)
    ensures |r| == |bookings|
  {
    if PatchError(bookings, f, auth).Some? then bookings
    else
      var i := FirstIndex(bookings, HasId(f.id.value));
      var b := bookings[i];
      bookings[i := b.(status := f.status, message := NextMessage(b.message, f.note, clock.iso))]
  }

  /** 200 with the updated booking exactly when every check passes; otherwise the first failed check. */
  function PatchReply(bookings: seq<Booking>, f: PatchForm, auth: string, clock: Clock): (r: Response)
    ensures r.Response? && (r.status == 200 <==> PatchError(bookings, f, auth).None?)
    ensures r.status == 200 ==>
      && r.reply.BookingUpdated? && r.reply.booking.id == f.id.value
      && r.reply.booking in PatchBookings(bookings, f, auth, clock)
  {
    match PatchError(bookings, f, auth)
    case Some(e) => Response(e.0, Error(e.1))
    case None =>
      var i := FirstIndex(bookings, HasId(f.id.value));
      Response(200, BookingUpdated(PatchBookings(bookings, f, auth, clock)[i]))
  }

  /** With the numbering kept, booking `id` sits at position `id - 1`. */
  lemma BookingIndexIsIdMinusOne(bookings: seq<Booking>, id: int)
    requires Numbered(bookings)
    ensures FirstIndex(bookings, HasId(id)) == (if 1 <= id <= |bookings| then id - 1 else -1)
  {
    if 1 <= id <= |bookings| {
      FirstIndexAt(bookings, HasId(id), id - 1);
    } else {
      FirstIndexAt(bookings, HasId(id), |bookings|);
    }
  }

  /**
   * An accepted update changes only the status and message of the booking
   * with that number; the note, when given, is appended on a new line
   * after an `[ADMIN <time>]` tag.
   */
  lemma PatchChangesOneBooking(bookings: seq<Booking>, f: PatchForm, auth: string, clock: Clock)
    requires Numbered(bookings)
    requires PatchError(bookings, f, auth).None?
    ensures var id := f.id.value; var r := PatchBookings(bookings, f, auth, clock);
      && 1 <= id <= |bookings|
      && r[id - 1] == bookings[id - 1].(status := f.status,
                                       message := NextMessage(bookings[id - 1].message, f.note, clock.iso))
      && forall k :: 0 <= k < |bookings| && k != id - 1 ==> r[k] == bookings[k]
  {
    BookingIndexIsIdMinusOne(bookings, f.id.value);
  }

  /** A note is appended after the existing message, never replacing it. */
  lemma NoteAppended(existing: string, note: string, iso: string)
    requires note != []
    ensures existing != [] ==> NextMessage(existing, note, iso) == existing + "\n" + NoteLine(note, iso)
    ensures existing <= NextMessage(existing, note, iso)
  {
  }

  lemma PatchKeepsValid(bookings: seq<Booking>, f: PatchForm, auth: string, clock: Clock)
    requires ValidBookings(bookings)
    ensures ValidBookings(PatchBookings(bookings, f, auth, clock))
  {
    if PatchError(bookings, f, auth).None? {
      var i := FirstIndex(bookings, HasId(f.id.value));
      ValidBookingsUpdate(bookings, i, f.status, NextMessage(bookings[i].message, f.note, clock.iso));
    }
  }

  // ----- routing -----

  datatype Route =
    | HealthRoute | RegisterRoute | LoginRoute | ResetRoute | BookRoute | PaymentRoute
    | OverviewRoute | PatchRoute | NotifyRoute | ChatRoute | Unknown

  /** `String((options && options.method) || 'GET').toUpperCase() === 'PATCH'`. */
  predicate IsPatch(verb: Option<string>) {
    Client.MethodOf(verb) == "PATCH"
  }

  /** The routes in the order the handler tries them. */
  function RouteOf(path: string, verb: Option<string>): Route {
    if path == "/api/health" then HealthRoute
    else if path == "/api/register" then RegisterRoute
    else if path == "/api/login" then LoginRoute
    else if path == "/api/reset-password" then ResetRoute
    else if path == "/api/book-consultation" then BookRoute
    else if path == "/api/payment" then PaymentRoute
    else if StartsWith(path, "/api/admin/overview") then OverviewRoute
    else if StartsWith(path, "/api/admin/bookings/") && IsPatch(verb) then PatchRoute
    else if path == "/api/notify" then NotifyRoute
    else if path == "/api/chat" then ChatRoute
    else Unknown
  }

  datatype Request = Request(path: string, verb: Option<string>, body: Body, auth: string)

  /** `(body.message || '').toString().trim()` decides between the two canned replies. */
  function DemoChat(message: string): (r: Response)
    ensures r.Response? && r.status == 200 && r.reply.ChatReply?
    ensures r.reply.reply == ChatAnswer <==> !AllSpace(message)
  {
    TrimEmptyIffAllSpace(message);
    Response(200, ChatReply(if Trim(message) != [] then ChatAnswer else ChatPrompt))
  }

  // The writing routes, each as the arrays afterwards and the response.

  function RegisterStep(s: Store, f: Signup, clock: Clock, enc: TokenEncoding): (Store, Response) {
    (s.(users := RegisterUsers(s.users, f, clock)), RegisterReply(s.users, f, clock, enc))
  }

  function ResetStep(s: Store, f: ResetForm): (Store, Response) {
    (s.(users := ResetUsers(s.users, f)), ResetReply(s.users, f))
  }

  function BookStep(s: Store, f: BookingForm, clock: Clock): (Store, Response) {
    (s.(bookings := BookBookings(s.bookings, f, clock)), BookReply(s.bookings, f))
  }

  function PayStep(s: Store, body: Body, auth: string, clock: Clock): (Store, Response) {
    (s.(payments := PayPayments(s.payments, body, auth, clock)), PayReply(body, auth, clock))
  }

  function PatchStep(s: Store, f: PatchForm, auth: string, clock: Clock): (Store, Response) {
    (s.(bookings := PatchBookings(s.bookings, f, auth, clock)), PatchReply(s.bookings, f, auth, clock))
  }

  /**
   * A request once the handler has chosen its route and read the fields
   * that route uses from the body, the path and the `Authorization` header.
   */
  datatype Call =
    | HealthCall
    | RegisterCall(signup: Signup)
    | LoginCall(credentials: Credentials)
    | ResetCall(reset: ResetForm)
    | BookCall(booking: BookingForm)
    | PaymentCall(body: Body, auth: string)
    | OverviewCall(auth: string)
    | PatchCall(patch: PatchForm, auth: string)
    | NotifyCall
    | ChatCall(message: string)
    | UnknownCall

  function CallOf(req: Request): Call {
    match RouteOf(req.path, req.verb)
    case HealthRoute => HealthCall
    case RegisterRoute => RegisterCall(SignupOf(req.body))
    case LoginRoute => LoginCall(CredentialsOf(req.body))
    case ResetRoute => ResetCall(ResetFormOf(req.body))
    case BookRoute => BookCall(BookingFormOf(req.body))
    case PaymentRoute => PaymentCall(req.body, req.auth)
    case OverviewRoute => OverviewCall(req.auth)
    case PatchRoute => PatchCall(PatchFormOf(req.path, req.body), req.auth)
    case NotifyRoute => NotifyCall
    case ChatRoute => ChatCall(Field(req.body, "message"))
    case Unknown => UnknownCall
  }

  /** The fields read from a body are in the form the routes store them. */
  predicate WellRead(c: Call) {
    match c
    case RegisterCall(f) => CleanEmail(f.email) && CleanPhone(f.phone)
    case ResetCall(f) => CleanEmail(f.email) && CleanPhone(f.phone)
    case BookCall(f) => CleanEmail(f.email) && CleanPhone(f.phone)
    case _ => true
  }

  lemma CallOfWellRead(req: Request)
    ensures WellRead(CallOf(req))
  {
  }

  /** One routed request: the arrays afterwards and the response. */
  function Apply(s: Store, c: Call, clock: Clock, enc: TokenEncoding): (Store, Response) {
    match c
    case HealthCall => (s, Response(200, Health))
    case RegisterCall(f) => RegisterStep(s, f, clock, enc)
    case LoginCall(cr) => (s, LoginReply(s.users, cr, clock, enc))
    case ResetCall(f) => ResetStep(s, f)
    case BookCall(f) => BookStep(s, f, clock)
    case PaymentCall(body, auth) => PayStep(s, body, auth, clock)
    case OverviewCall(auth) => (s, OverviewReply(s, auth))
    case PatchCall(f, auth) => PatchStep(s, f, auth, clock)
    case NotifyCall => (s, Response(200, Message(DemoNotified)))
    case ChatCall(m) => (s, DemoChat(m))
    case UnknownCall => (s, Response(404, Error(NotInDemo)))
  }

  /** `demoApi(path, options)`: one request, the arrays afterwards and the response. */
  function Step(s: Store, req: Request, clock: Clock, enc: TokenEncoding): (Store, Response) {
    Apply(s, CallOf(req), clock, enc)
  }

  /** Every route keeps the stored arrays valid. */
  lemma ApplyKeepsValid(s: Store, c: Call, clock: Clock, enc: TokenEncoding)
    requires ValidStore(s) && WellRead(c)
    ensures ValidStore(Apply(s, c, clock, enc).0)
  {
    match c
    case RegisterCall(f) => RegisterKeepsValid(s.users, f, clock);
    case ResetCall(f) => ResetKeepsValid(s.users, f);
    case BookCall(f) => BookKeepsValid(s.bookings, f, clock);
    case PatchCall(f, auth) => PatchKeepsValid(s.bookings, f, auth, clock);
    case PaymentCall(body, auth) =>
      var p := PayPayments(s.payments, body, auth, clock);
      assert forall k :: 0 <= k < |s.payments| ==> p[k] == s.payments[k];
    case _ =>
  }

  lemma StepKeepsValid(s: Store, req: Request, clock: Clock, enc: TokenEncoding)
    requires ValidStore(s)
    ensures ValidStore(Step(s, req, clock, enc).0)
  {
    CallOfWellRead(req);
    ApplyKeepsValid(s, CallOf(req), clock, enc);
  }

  /** A rejected request writes nothing. */
  lemma FailedCallWritesNothing(s: Store, c: Call, clock: Clock, enc: TokenEncoding)
    requires Apply(s, c, clock, enc).1.Response? && !Succeeded(Apply(s, c, clock, enc).1)
    ensures Apply(s, c, clock, enc).0 == s
  {
  }

  /**
   * The handler throws only for a registration or a login whose address
   * has no token, and a registration has stored its user by then.
   */
  lemma ThrowingCalls(s: Store, c: Call, clock: Clock, enc: TokenEncoding)
    requires Apply(s, c, clock, enc).1.Threw?
    ensures c.RegisterCall? || c.LoginCall?
    ensures c.RegisterCall? ==> Apply(s, c, clock, enc).0.users == s.users + [NewUser(c.signup, clock)]
    ensures c.LoginCall? ==> Apply(s, c, clock, enc).0 == s
  {
  }

  /** An unknown endpoint answers 404 and writes nothing. */
  lemma UnknownEndpoint(s: Store, req: Request, clock: Clock, enc: TokenEncoding)
    requires RouteOf(req.path, req.verb) == Unknown
    ensures Step(s, req, clock, enc) == (s, Response(404, Error(NotInDemo)))
  {
    assert CallOf(req) == UnknownCall;
  }

  // ----- the stored arrays -----

  class DemoStore {
    var users: seq<User>
    var bookings: seq<Booking>
    var payments: seq<Payment>

    function State(): Store
      reads this
    {
      Store(users, bookings, payments)
    }

    ghost predicate Valid()
      reads this
    {
      ValidStore(State())
    }

    /** Nothing stored yet. */
    constructor()
      ensures users == [] && bookings == [] && payments == []
      ensures Valid()
    {
      users := [];
      bookings := [];
      payments := [];
    }

    method Register(f: Signup, clock: Clock, enc: TokenEncoding) returns (r: Response)
      modifies this
      ensures (State(), r) == RegisterStep(old(State()), f, clock, enc)
    {
      var e := RegisterError(users, f);
      if f.name == [] || f.email == [] || f.password == [] || f.phone == [] {
        assert e == Some(RegisterRequired);
        return Response(400, Error(RegisterRequired));
      }
      if !Contact.IsValidEmail(f.email) {
        assert e == Some(InvalidEmailFormat);
        return Response(400, Error(InvalidEmailFormat));
      }
      if Utf16Length(f.password) < 6 {
        assert e == Some(ShortPassword);
        return Response(400, Error(ShortPassword));
      }
      var i := FindFirst(users, HasEmail(f.email));
      if i != -1 {
        assert e == Some(UserExists);
        return Response(400, Error(UserExists));
      }
      assert e.None?;
      var user := NewUser(f, clock);
      users := users + [user];
      r := SessionFor(Registered, user, clock, enc);
    }

    method Login(c: Credentials, clock: Clock, enc: TokenEncoding) returns (r: Response)
      ensures r == LoginReply(users, c, clock, enc)
    {
      var i := FindFirst(users, HasEmail(c.email));
      if i == -1 || users[i].password != c.password {
        return Response(400, Error(InvalidCredentials));
      }
      r := SessionFor(LoggedIn, users[i], clock, enc);
    }

    method ResetPassword(f: ResetForm) returns (r: Response)
      modifies this
      ensures (State(), r) == ResetStep(old(State()), f)
    {
      if f.email == [] || f.phone == [] || f.newPassword == [] {
        return Response(400, Error(ResetRequired));
      }
      if Utf16Length(f.newPassword) < 6 {
        return Response(400, Error(ShortPassword));
      }
      var i := FindFirst(users, ResetTarget(f.email, f.phone));
      assert i == ResetIndex(users, f);
      assert ResetError(users, f) == if i == -1 then Some(InvalidEmailOrPhone) else None;
      if i == -1 {
        return Response(400, Error(InvalidEmailOrPhone));
      }
      users := users[i := users[i].(password := f.newPassword)];
      r := Response(200, Message(PasswordReset));
    }

    method BookConsultation(f: BookingForm, clock: Clock) returns (r: Response)
      modifies this
      ensures (State(), r) == BookStep(old(State()), f, clock)
    {
      if f.name == [] || f.email == [] || f.phone == [] {
        return Response(400, Error(BookingRequired));
      }
      if !Contact.IsValidEmail(f.email) {
        return Response(400, Error(InvalidEmailFormat));
      }
      var booking := Booking(|bookings| + 1, f.name, f.email, f.phone, f.service, f.message, "pending", clock.now);
      bookings := bookings + [booking];
      r := Response(200, BookingCreated(booking.id, booking.status));
    }

    method Pay(body: Body, auth: string, clock: Clock) returns (r: Response)
      modifies this
      ensures (State(), r) == PayStep(old(State()), body, auth, clock)
    {
      if !DemoAuthorized(auth) {
        return Response(401, Error(AccessDenied));
      }
      var payment := NewPayment(body, clock);
      payments := payments + [payment];
      r := Response(200, PaymentMade(payment));
    }

    method UpdateBooking(f: PatchForm, auth: string, clock: Clock) returns (r: Response)
      modifies this
      ensures (State(), r) == PatchStep(old(State()), f, auth, clock)
    {
      if !DemoAuthorized(auth) {
        return Response(401, Error(AccessDenied));
      }
      if f.id.None? || f.id.value < 1 {
        return Response(400, Error(InvalidBookingId));
      }
      if !IsAllowedStatus(f.status) {
        return Response(400, Error(InvalidBookingStatus));
      }
      var i := FindFirst(bookings, HasId(f.id.value));
      if i == -1 {
        return Response(404, Error(BookingNotFound));
      }
      var b := bookings[i];
      var updated := b.(status := f.status, message := NextMessage(b.message, f.note, clock.iso));
      bookings := bookings[i := updated];
      r := Response(200, BookingUpdated(updated));
    }

    /** `demoApi(path, options)`: dispatch on the path, in the handler's order. */
    method Handle(req: Request, clock: Clock, enc: TokenEncoding) returns (r: Response)
      modifies this
      ensures (State(), r) == Step(old(State()), req, clock, enc)
      ensures old(Valid()) ==> Valid()
    {
      ghost var before := State();
      r := Serve(CallOf(req), clock, enc);
      if ValidStore(before) {
        StepKeepsValid(before, req, clock, enc);
      }
    }

    method Serve(c: Call, clock: Clock, enc: TokenEncoding) returns (r: Response)
      modifies this
      ensures (State(), r) == Apply(old(State()), c, clock, enc)
      ensures old(Valid()) && WellRead(c) ==> Valid()
    {
      ghost var before := State();
      match c {
        case HealthCall => r := Response(200, Health);
        case RegisterCall(f) => r := Register(f, clock, enc);
        case LoginCall(cr) => r := Login(cr, clock, enc);
        case ResetCall(f) => r := ResetPassword(f);
        case BookCall(f) => r := BookConsultation(f, clock);
        case PaymentCall(body, auth) => r := Pay(body, auth, clock);
        case OverviewCall(auth) => r := OverviewReply(State(), auth);
        case PatchCall(f, auth) => r := UpdateBooking(f, auth, clock);
        case NotifyCall => r := Response(200, Message(DemoNotified));
        case ChatCall(m) => r := DemoChat(m);
        case UnknownCall => r := Response(404, Error(NotInDemo));
      }
      if ValidStore(before) && WellRead(c) {
        ApplyKeepsValid(before, c, clock, enc);
      }
    }
  }
}
