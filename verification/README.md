# Kvantum web back end and demo clients — a Dafny model

Kvantum (also branded QUANTUM) is a coaching-school web site. The
repository pairs an Express server with two browser clients:
- the public site, `public/app.js`;
- the admin panel, `public/admin.js`.

When no backend is configured, each client answers its own requests from
an in-browser "demo API" that keeps JSON arrays in local storage.

This project models the logic of that system:

- **the two demo APIs.** `DemoApi` covers the public client's routes:
  register, login, password reset, consultation booking, payment, the admin
  overview, the admin booking PATCH, notify and chat. `DemoAdmin` covers the
  admin panel's content routes over testimonials, programs and services,
  and the demo-user role that guards them. Each has:
  - pure functions giving the response and the new arrays;
  - a class whose methods update the stored arrays step by step and are
    proved to agree with those functions;
  - lemmas for what the routes promise: who is accepted, what exactly
    changes, which invariants the stored arrays keep, and round trips such
    as register-then-login.
- **the input normalisers shared by the routes.** `Contact` models
  `normalizePhone` and `isValidEmail`. `Text` models JavaScript `trim`,
  `toLowerCase`, `split`, `join` and `includes`.
- **the server's pure decisions.** `Server` covers the admin e-mail list,
  the admin gate, the CORS origin check, the overview `limit` clamp and the
  reset-password check. `Chat` is the keyword chatbot of `server.js` and
  `routes/chat.js`. `Notify` is the notify dispatcher of `server.js` and
  `routes/notify.js`.
- **the clients' configuration.** `RuntimeConfig` models `public/config.js`.
  `Client` covers how each client reads its API base and demo flag,
  `buildApiUrl`, the request method, and the admin search filter.

Modules:

| file | module | models |
|---|---|---|
| base.dfy | `Base` | optional values, the two brand names, `value \|\| ''` |
| text.dfy | `Text` | JavaScript white space, `trim`, case mapping, `includes`, `indexOf`, `split`/`join`, decimal digits |
| search.dfy | `Search` | `findIndex`, as a function and as a loop |
| contact.dfy | `Contact` | `normalizePhone`, `isValidEmail` |
| chat.dfy | `Chat`, `ChatReply` | the chatbot's first-keyword-match classifier, and the reply texts of the server and the chat router |
| notify.dfy | `Notify` | the WhatsApp/Telegram notify dispatcher |
| server.dfy | `Server` | admin list and gate, CORS, limit clamp, reset-password checks |
| config.dfy | `RuntimeConfig` | the API base and demo-flag configuration |
| client.dfy | `Client` | client settings, `buildApiUrl`, request method, admin search |
| demo_api.dfy | `DemoApi` | `demoApi` of the public client, class `DemoStore` |
| demo_admin.dfy | `DemoAdmin` | `demoAdminApi` of the admin panel, class `AdminStore`; the features list |

Browser and runtime services are function parameters:
- the base64 alphabet of `btoa`, and `atob` and `encodeURIComponent`;
- the clock: `Date.now()` as a natural number, the ISO time as a string.

`btoa` itself is modelled as far as the routes depend on it: it throws on
any character above U+00FF, and the public demo API then throws instead of
answering.

## Model

| member | source | states |
|---|---|---|
| Text.Trim | public/app.js:22 | `String.prototype.trim`: the result has no JavaScript white space at either end and is what remains after dropping leading and trailing white space |
| Text.TrimDropsOnlySpace | public/app.js:22 | everything `trim` removes, before and after the result, is JavaScript white space |
| Text.TrimIdempotent | public/app.js:27 | trimming a trimmed value changes nothing |
| Text.TrimEmptyIffAllSpace | public/app.js:102 | a trimmed field is empty exactly when the original is all white space, so `!name` after trimming rejects blank input |
| Text.Lower | public/app.js:22 | `toLowerCase` maps A-Z and U+0400-U+042F to lower case and keeps every other character, keeping the length |
| Text.Upper | public/admin.js:50 | `toUpperCase` maps a-z and U+0430-U+045F to upper case and keeps every other character, keeping the length |
| Text.TrimStart | server.js:281 | the white space `parseInt` skips: the suffix after the leading white space |
| Text.TrimStartAfterSpace | server.js:281 | a run of white space before text that does not start with white space is exactly what is skipped |
| Text.Utf16Length | public/app.js:110 | `length` counts UTF-16 code units: at least the number of characters and at most twice it |
| Text.Utf16LengthAppend | public/app.js:110 | the code units of a concatenation are those of its parts |
| Text.Latin1 | public/app.js:131 | the text `btoa` accepts: every character at most U+00FF (`Text.Latin1Append`: closed under concatenation) |
| Text.Utf8 | public/app.js:131 | `unescape(encodeURIComponent(s))` is Latin-1 text, between one and four bytes per character |
| Text.Utf8OfAscii | public/app.js:131 | ASCII text is its own UTF-8 form |
| Text.Contains | server.js:364 | `includes` is true exactly when the pattern occurs at some position |
| Text.Digits | public/app.js:39 | `replace(/\D/g, '')` keeps only digits and never lengthens the text |
| Text.Join | public/admin.js:359 | `join(sep)`: the parts with the separator between each two (properties in Text.JoinSplit and Text.SplitJoin) |
| Text.StripTrailingSlash | public/app.js:13 | `replace(/\/$/, '')` removes exactly one trailing slash when there is one, and nothing else |
| Text.TrimLowerCommute | public/app.js:945 | trimming then lower-casing equals lower-casing then trimming, so `.toLowerCase().trim()` and `.trim().toLowerCase()` normalise alike |
| Text.Split | server.js:18 | `split(sep)` gives at least one part and no part contains the separator |
| Text.JoinSplit | server.js:18 | joining the parts of a split with the separator gives back the string |
| Text.SplitJoin | public/admin.js:359 | splitting a join of separator-free parts gives back the parts |
| Text.Entries | server.js:17-20 | `split(sep).map(trim).filter(Boolean)` yields non-empty, trimmed, separator-free entries |
| Text.EntriesOfJoin | server.js:17-20 | clean entries joined by the separator are recovered in order |
| Text.EntriesOfBlank | server.js:17-20 | a string of separators and white space has no entries |
| Text.EntriesAppend | public/admin.js:390 | the entries of `a + sep + b` are those of `a` followed by those of `b` |
| Text.Decimal | public/app.js:131 | the decimal rendering of `Date.now()` is a non-empty digit string |
| Text.DecimalValueOfDecimal | server.js:281 | reading the decimal rendering of a number gives the number back |
| Search.FirstIndex | public/app.js:171 | `findIndex` is -1 or a position whose element satisfies the predicate |
| Search.FirstIndexIsFirst | public/app.js:143 | `find`/`findIndex` gives -1 exactly when no element satisfies the predicate, and no element before the result does |
| Search.FirstIndexAt | public/app.js:171 | a position that satisfies the predicate with none before it is the one `findIndex` returns |
| Search.FindFirst | public/admin.js:96 | the loop search returns the same index as the `findIndex` specification |
| Search.FirstIndexOfAppend | public/app.js:115-128 | an element appended to an array with no match is the one found |
| Contact.NormalizePhone | public/app.js:26-42 | the result is empty or `+` followed by 8 to 15 digits |
| Contact.PhoneChars | public/app.js:30 | `replace(/[^\d+]/g, '')` keeps only digits and plus signs, never lengthening the text |
| Contact.NormalizePhoneByDigits | public/app.js:26-42 | the result depends only on the kept `+`/digit characters: `00` becomes `+`, no `+` gives empty, then the digit count is checked |
| Contact.NormalizePhoneIdempotent | public/app.js:26-42 | normalising a normalised phone changes nothing |
| Contact.NormalizePhoneOfCanonical | public/app.js:26-42 | a canonical `+digits` phone is its own normalisation |
| Contact.NormalizePhoneDoubleZero | public/app.js:31-33 | `00` plus 8 to 15 digits and `+` plus the same digits normalise to the same phone |
| Contact.NormalizePhoneNeedsPrefix | public/app.js:35-37 | a phone whose kept characters start with neither `+` nor `00` normalises to empty |
| Contact.PhoneCharsOfTrim | public/app.js:27-30 | trimming before dropping non-phone characters changes nothing |
| Contact.MatchesEmailPattern | public/app.js:23 | the regular expression as a property: some `@` at i and `.` at j split the address into three non-empty runs without white space or `@`, the last of at least two UTF-16 code units (the reference Contact.EmailShape is proved against) |
| Contact.EmailShape | public/app.js:23 | the executable check agrees with the regular expression `^[^\s@]+@[^\s@]+\.[^\s@]{2,}$`, whose `{2,}` counts UTF-16 code units as the pattern has no `u` flag |
| Contact.IsValidEmail | public/app.js:21-24 | true exactly when the trimmed, lower-cased value matches the e-mail pattern |
| Contact.ValidEmailHasOneAt | public/app.js:21-24 | a valid address has exactly one `@`, not first, and no white space |
| Contact.ValidEmailIgnoresCase | public/app.js:22 | letter case does not affect validity |
| Chat.FirstMatch | server.js:364-386 | the topic of the first rule from k on whose keywords the message mentions, or help (properties in Chat.ClassifyIsFirstMatch) |
| Chat.Classify | server.js:364-386 | the topic is the first rule in source order whose keyword list the lowered message mentions |
| Chat.RuleKeywords | server.js:364-383 | each rule's keyword list is exactly the `includes` disjunction of its branch |
| Chat.ClassifyIsFirstMatch | server.js:364-386 | a topic is chosen exactly when its rule matches and no earlier rule does |
| Chat.ClassifyHelp | server.js:384-386 | the fallback help text is given exactly when no rule matches |
| ChatReply.Reply | server.js:364-386 | the reply text of each topic, the greeting and the founder text naming the brand (properties in the lemmas below) |
| ChatReply.Respond | server.js:359-388 | the reply to a message is the text of the topic its lower-cased form is classified as |
| ChatReply.RespondIgnoresCase | server.js:360 | lower-casing the message first does not change the reply |
| ChatReply.RespondIgnoresUpperCase | server.js:360 | upper-casing a message of ASCII and basic Cyrillic characters does not change the reply |
| ChatReply.MissingMessageGetsHelp | server.js:360 | an absent or empty message gets the help text |
| ChatReply.AnyHiIsGreeting | server.js:364 | any message containing `hi` in any case gets the greeting |
| ChatReply.ThisIsGreeting | server.js:364 | "this costs what?" gets the greeting, not the price list, because `hi` occurs inside "this" |
| ChatReply.PricingShadowsPrograms | server.js:366 | a message mentioning a price and no greeting keyword gets the price list, whatever programme it names |
| ChatReply.BrandOnlyDifference | routes/chat.js:10-31 | the router and the server answer the same text for every topic except the greeting and the founder text, which name their brand |
| Notify.ChosenText | server.js:396 | `message \|\| default`: a non-empty message is used as is, otherwise the thank-you text |
| Notify.WhatsAppLink | server.js:396 | `https://wa.me/<digits of the phone>?text=<encoded text>` (properties in Notify.WhatsAppLinkRoundTrip) |
| Notify.WhatsAppLinkRoundTrip | server.js:396 | the link carries exactly the phone's digits and the encoded text, and both can be read back |
| Notify.Dispatch | server.js:392-403 | `whatsapp` gives the ready message with the link, `telegram` the fixed acknowledgement and note, anything else the plain acknowledgement |
| Notify.MissingPhoneEmptySegment | server.js:396 | a missing phone gives an empty phone segment |
| Notify.BrandOnlyInDefaultText | routes/notify.js:4-15 | the router and the server answer alike unless a WhatsApp link falls back to the default text |
| Server.AdminSource | server.js:21 | `process.env.ADMIN_EMAILS` or the default address when it is unset |
| Server.AdminList | server.js:21-24 | the admin list is the trimmed, lower-cased, non-empty comma-separated entries of the setting |
| Server.NormalizeEmail | server.js:68 | the normalised address is trimmed and lower case, and empty when absent |
| Server.IsAdminEmail | server.js:67-71 | an empty normalised address is never admin; otherwise admin exactly when listed |
| Server.AdminEmailIffListed | server.js:67-71 | an address is admin exactly when some entry of the setting lower-cases to its normalised form |
| Server.AdminEmailsOfList | server.js:21-24 | a comma-joined list of clean addresses is read back as exactly that list |
| Server.DefaultAdminList | server.js:21 | without the setting, the one default address is the list |
| Server.AdminGate | server.js:73-86 | with no admins the gate passes outside production and answers 503 in production; otherwise it passes exactly the admin addresses |
| Server.BlankAdminListOpensGate | server.js:75-77 | a setting of only commas and spaces leaves no admins: open in development, closed in production |
| Server.AllowedOrigins | server.js:17-20 | every allowed origin is non-empty, trimmed and free of commas |
| Server.CorsAllows | server.js:26-34 | a missing origin or an empty list allows; otherwise exactly the listed origins are allowed |
| Server.BlankOriginsAllowAll | server.js:17-20 | a blank origin setting allows every origin |
| Server.ListedOriginsExactly | server.js:17-34 | with a comma-joined list of clean origins, an origin is allowed exactly when it is in the list |
| Server.LeadingDigits | server.js:281 | the longest digit prefix `parseInt` reads |
| Server.ParseInt | server.js:281 | an absent query value gives NaN |
| Server.ParseIntOfParts | server.js:281 | after leading white space, an optional sign and a run of digits give the signed value of the digits, whatever follows; no digits give NaN |
| Server.ParseIntAfterSpace | server.js:281 | leading white space does not change what `parseInt` reads |
| Server.Clamp | server.js:282 | `Math.min(Math.max(n, 1), 200)` (properties in Server.OverviewLimit and Server.LimitIdempotent) |
| Server.OverviewLimit | server.js:281-282 | the limit is within 1..200, 25 when unparsable, the parsed value when it is in range, 200 above and 1 below |
| Server.ParseIntOfDecimal | server.js:281 | `parseInt` reads a decimal rendering back to the number |
| Server.LimitOfDecimal | server.js:282 | a decimal limit is clamped into 1..200 |
| Server.LimitIdempotent | server.js:282 | clamping a clamped limit changes nothing |
| Server.LimitIgnoresSuffix | server.js:281 | characters after the digits are ignored |
| Server.LimitOfNegative | server.js:282 | a negative limit becomes 1 |
| Server.LimitOfWord | server.js:282 | a limit that does not start with a number gives 25 |
| Server.ResetPasswordCheck | server.js:157-180 | a reset is allowed only for a normalised address that has a stored user |
| Server.ResetIff | server.js:160-179 | a reset is allowed exactly when the inputs are present, the password has 6 or more UTF-16 code units, the user exists and its stored phone has the same non-empty digits |
| Server.ResetIgnoresPhoneFormatting | server.js:161 | phones with the same digits are treated alike |
| Server.ShortPasswordRefused | server.js:167-169 | a new password shorter than 6 UTF-16 code units is refused |
| Server.EmptyStoredPhoneNeverMatches | server.js:176-178 | a stored user without phone digits can never reset |
| RuntimeConfig.ChooseOverride | public/config.js:8-23 | the first non-blank override in the order query, runtime, storage, trimmed; empty only when all are blank |
| RuntimeConfig.HostDefault | public/config.js:4-6 | localhost gives the local API, GitHub Pages the hosted API, any other host the same origin |
| RuntimeConfig.Resolve | public/config.js:25-36 | an override minus one trailing slash, else the host default; the demo flag is always off |
| RuntimeConfig.QueryOverrideWins | public/config.js:23 | a non-blank query override wins over every other source |
| RuntimeConfig.RuntimeOverrideBeatsStorage | public/config.js:23 | without a query override, the runtime global wins over storage |
| RuntimeConfig.StorageOverrideLast | public/config.js:23 | storage is used only when both other sources are blank |
| RuntimeConfig.BlankOverridesIgnored | public/config.js:23-25 | white-space-only overrides count as absent |
| RuntimeConfig.OneSlashRemoved | public/config.js:26 | only one trailing slash is removed |
| Client.ReadSettings | public/admin.js:2-3 | the base is the trimmed global minus one trailing slash; demo mode is the flag, or no base on GitHub Pages |
| Client.ConfiguredSettings | public/admin.js:2-3 | the settings read from the `QUANTUM_*` globals the configuration writes, as admin.js does (properties in Client.ClientUsesConfiguredBase) |
| Client.AppSettingsAsWritten | public/app.js:13-14 | the settings app.js reads from the `KVANTUM_*` globals (properties in Client.AppIgnoresConfiguredBase and Client.GitHubPagesAsWritten) |
| Client.AppIgnoresConfiguredBase | public/app.js:13-14 | as written, app.js never sees the configured base: same-origin requests, and the demo API on GitHub Pages |
| Client.GitHubPagesAsWritten | public/app.js:13-14 | on a GitHub Pages host with no override, the admin panel uses the hosted API while app.js uses the demo API |
| Client.ClientUsesConfiguredBase | public/admin.js:2-3 | reading the configured globals gives exactly the configured clean base, and the demo API only with no base on GitHub Pages |
| Client.HostDefaultsAreClean | public/config.js:27-34 | every host default is trimmed and has no trailing slash |
| Client.BuildApiUrl | public/app.js:16-19 | the path gets a leading slash, and the base goes in front |
| Client.LeadingSlashOptional | public/admin.js:15-18 | writing the leading slash or not gives the same URL |
| Client.PathAfterBase | public/app.js:16-19 | the URL is the base, a slash, and the path |
| Client.MethodOf | public/admin.js:50 | a given method is upper-cased; an absent or empty one is GET |
| Client.NormalizeAdminValue | public/app.js:944-946 | the value lower-cased and trimmed, which is itself trimmed and lower case |
| Client.MatchesAdminSearch | public/app.js:1040-1043 | an empty query matches every record, otherwise some field must include it (properties in Client.SearchFindsAnyCase and Client.BlankSearchMatchesAll) |
| Client.SearchFindsAnyCase | public/app.js:1040-1043 | a record with a field containing the search text, in any letter case, is kept by the filter |
| Client.BlankSearchMatchesAll | public/app.js:1041 | a blank search keeps every record |
| DemoApi.EmailOf | public/app.js:98 | the address a route reads is trimmed and lower case |
| DemoApi.PhoneOf | public/app.js:100 | the phone a route reads is empty or canonical |
| DemoApi.EmailTakenIff | public/app.js:115 | `users.some(u => u.email === email)` holds exactly when some stored user has the address |
| DemoApi.DemoAuthorized | public/app.js:221 | a non-empty `Authorization` header starting `Bearer demo-`, the check of the payment, overview (:252) and PATCH (:291) routes |
| DemoApi.Encode | public/app.js:131 | the token text is encoded unless `btoa` is given a character above U+00FF; encoding UTF-8 first always succeeds |
| DemoApi.DemoToken | public/app.js:131 | a token, starting `demo-`, is made exactly when the address is Latin-1 or the text is encoded as UTF-8 first |
| DemoApi.SessionFor | public/app.js:131-136 | a 200 session for the user's address, or an exception exactly when no token can be made |
| DemoApi.RegisterError | public/app.js:102-117 | the first failed registration check: a missing field, a bad address, a password under 6 code units, a taken address (properties in DemoApi.RegisterAcceptedIff) |
| DemoApi.NewUser | public/app.js:119-126 | the stored user: id and creation time both `Date.now()`, and the form's fields (validity in DemoApi.RegisterKeepsValid) |
| DemoApi.RegisterUsers | public/app.js:128-129 | the users after a registration: the new user appended exactly when every check passes |
| DemoApi.RegisterReply | public/app.js:102-136 | 200 with a session for the address exactly when every check passes and a token can be made; an exception when the checks pass but no token can be made; otherwise 400 with the first failed check |
| DemoApi.RegisterAcceptedIff | public/app.js:96-117 | registration is accepted exactly when name and phone are non-empty, the address is valid, the password has 6 or more UTF-16 code units and no stored user has the address |
| DemoApi.RegisterKeepsValid | public/app.js:119-129 | registering keeps every stored user well formed and the stored addresses distinct |
| DemoApi.LoginReply | public/app.js:139-155 | an unknown address and a wrong password get the same 400 answer; a session is for the address asked for |
| DemoApi.LoginIff | public/app.js:139-155 | login answers 200 exactly when a stored user has the address and the exact password and a token can be made; with such a user and no token it throws |
| DemoApi.RegisterThenLogin | public/app.js:96-155 | when a token can be made for the address, registration answers 200 and logging in with the same address and password succeeds |
| DemoApi.RegisterThrowsAfterStoring | public/app.js:128-131 | as written, an accepted address with a character above U+00FF is stored and then `btoa` throws; registering again is refused as taken, and login throws |
| DemoApi.CyrillicAddressAccepted | public/app.js:21-24 | `я@мир.рф` passes `isValidEmail` and is not Latin-1 |
| DemoApi.RegisterThenLoginUtf8 | public/app.js:131 | with the token text encoded as UTF-8 first, every accepted registration answers 200 and the user can log in |
| DemoApi.ResetUsers | public/app.js:170-181 | a reset keeps the number of users |
| DemoApi.ResetError | public/app.js:162-178 | the first failed reset check: missing fields, a password under 6 code units, no user with that address and phone |
| DemoApi.ResetReply | public/app.js:176-183 | 400 with the first failed reset check, else 200 with the reset message (properties in DemoApi.ResetChangesOnePassword and DemoApi.ResetThenLogin) |
| DemoApi.ResetChangesOnePassword | public/app.js:170-181 | a successful reset changes only the password of the first user whose address and normalised phone both match |
| DemoApi.ResetKeepsValid | public/app.js:157-184 | a reset keeps the stored users well formed and distinct |
| DemoApi.ResetThenLogin | public/app.js:157-184 | after a successful reset, login with the new password succeeds when a token can be made for the address |
| DemoApi.BookingError | public/app.js:191-197 | the first failed booking check: a missing field, then an invalid address |
| DemoApi.NewBooking | public/app.js:199-209 | the stored booking: the next number, the form's fields, `pending` and the time |
| DemoApi.BookBookings | public/app.js:210-211 | the bookings after a request: the new booking appended exactly when the checks pass (properties in DemoApi.BookKeepsValid) |
| DemoApi.BookReply | public/app.js:188-216 | 400 with the first failed check, else 200 with the new booking's number and `pending` |
| DemoApi.BookingAcceptedIff | public/app.js:186-197 | a booking is accepted exactly when name and phone are non-empty and the address is valid |
| DemoApi.BookKeepsValid | public/app.js:199-211 | booking appends one well-formed booking numbered one past the last |
| DemoApi.NewPayment | public/app.js:225-233 | the stored payment: id `PAY-<now>`, the body's product and amount, the currency or `KGS`, `completed` |
| DemoApi.PayPayments | public/app.js:219-235 | the payments after a request: one appended exactly when the header is a demo token |
| DemoApi.PayReply | public/app.js:219-247 | 401 without a demo token, else 200 with the payment |
| DemoApi.PaymentRecorded | public/app.js:219-247 | an authorised payment appends exactly one `completed` payment, echoed in the reply, with id `PAY-` and digits that read back as the time, the body's product and amount, and the currency or `KGS`; otherwise 401 and no write |
| DemoApi.InsertByNewest | public/app.js:268 | insertion keeps the elements, as a multiset, and adds the new one |
| DemoApi.InsertKeepsNewestFirst | public/app.js:268 | inserting into a newest-first list keeps it newest first |
| DemoApi.SortByNewest | public/app.js:264-275 | the sort keeps the length and the elements |
| DemoApi.SortByNewestSorted | public/app.js:264-275 | the sort result is newest first and a permutation of its input |
| DemoApi.Take | public/app.js:283-285 | `slice(0, n)` is a prefix of length at most n |
| DemoApi.Rows | public/app.js:256-263 | one row per user, each that user's id, name, address, phone and time |
| DemoApi.OverviewReply | public/app.js:250-287 | 401 without a demo token; otherwise the totals and the first 200 of each list sorted newest first (properties in DemoApi.OverviewLists) |
| DemoApi.OverviewLists | public/app.js:250-287 | an authorised overview reports the true totals and lists the 200 newest users, bookings and payments, newest first: as many as stored up to 200, each drawn from the stored ones, and none left out newer than one listed |
| DemoApi.NewestListed | public/app.js:268-285 | the first `n` of a newest-first sort are the `n` newest, newest first, drawn from the input as a sub-multiset; with `n` or fewer, all of them |
| DemoApi.NewestFirstPrefix | public/app.js:268-285 | in a newest-first sequence nothing after a cut is newer than anything before it |
| DemoApi.LastSegment | public/app.js:295 | `path.split('?')[0].split('/').pop()` (properties in DemoApi.LastSegmentAfterSlash) |
| DemoApi.BookingIdOf | public/app.js:295 | `Number` of the last segment, when it is a positive integer (properties in DemoApi.BookingIdOfPath) |
| DemoApi.PatchFormOf | public/app.js:295-297 | the booking id, the trimmed lower-case status and the trimmed note a PATCH reads |
| DemoApi.PositiveId | public/app.js:295-302 | a booking id read from the path is at least 1 |
| DemoApi.BookingIdOfPath | public/app.js:295 | the id written into `/api/admin/bookings/<id>` is read back |
| DemoApi.LastSegmentAfterSlash | public/app.js:295 | a path with no `?` and a final segment without `/` has that segment as its last |
| DemoApi.PositiveIdOfDecimal | public/app.js:295-301 | `Number` reads a positive decimal numeral back as its value |
| DemoApi.PatchBookings | public/app.js:308-327 | a PATCH keeps the number of bookings |
| DemoApi.PatchError | public/app.js:289-313 | the first failed PATCH check with its status: 401 without a demo token, 400 for a bad id or status, 404 for an unknown booking |
| DemoApi.PatchReply | public/app.js:289-333 | 200 exactly when every check passes, with the updated booking of that id |
| DemoApi.BookingIndexIsIdMinusOne | public/app.js:309 | in numbered bookings, the booking with id n is at position n-1 |
| DemoApi.PatchChangesOneBooking | public/app.js:321-325 | a successful PATCH changes only that booking's status and message |
| DemoApi.NoteLine | public/app.js:316-317 | the `[ADMIN <iso>] <note>` line |
| DemoApi.NextMessage | public/app.js:314-319 | `nextMessage`: unchanged without a note, the note line alone on an empty message, else the message, a newline and the note line (properties in DemoApi.NoteAppended) |
| DemoApi.NoteAppended | public/app.js:315-319 | a note is appended after the existing message on a new line, never replacing it |
| DemoApi.PatchKeepsValid | public/app.js:289-333 | a PATCH keeps the bookings numbered and well formed, with allowed statuses |
| DemoApi.DemoChat | public/app.js:339-345 | chat answers 200, with the thank-you text exactly when the message is not blank |
| DemoApi.RouteOf | public/app.js:91-347 | the route of a path and method, tried in the handler's order |
| DemoApi.CallOf | public/app.js:91-347 | the route with the fields it reads from the body, path and header |
| DemoApi.Step | public/app.js:85-348 | `demoApi`: the routed call applied to the stored arrays |
| DemoApi.CallOfWellRead | public/app.js:96-217 | every request's fields are read in the normalised form the routes store |
| DemoApi.ApplyKeepsValid | public/app.js:85-348 | every route keeps the stored arrays valid |
| DemoApi.StepKeepsValid | public/app.js:85-348 | every request keeps the stored arrays valid |
| DemoApi.FailedCallWritesNothing | public/app.js:85-348 | a request answered, but not with 200, leaves every stored array unchanged |
| DemoApi.ThrowingCalls | public/app.js:128-149 | only registration and login throw; a throwing registration has stored its user, a throwing login writes nothing |
| DemoApi.UnknownEndpoint | public/app.js:347 | an unknown path gets 404 and writes nothing |
| DemoApi.DemoStore.constructor | public/app.js:87-89 | the stored arrays start empty and valid |
| DemoApi.DemoStore.Register | public/app.js:96-137 | the stored arrays and reply are those of the register route, including the stored user before a throwing `btoa` |
| DemoApi.DemoStore.Login | public/app.js:139-155 | the reply, or the exception, is that of the login route, and nothing is written |
| DemoApi.DemoStore.ResetPassword | public/app.js:157-184 | the arrays and reply are those of the reset route |
| DemoApi.DemoStore.BookConsultation | public/app.js:186-217 | the arrays and reply are those of the booking route |
| DemoApi.DemoStore.Pay | public/app.js:219-248 | the arrays and reply are those of the payment route |
| DemoApi.DemoStore.UpdateBooking | public/app.js:289-333 | the arrays and reply are those of the PATCH route |
| DemoApi.DemoStore.Handle | public/app.js:85-348 | the arrays and reply, or the exception, are those of `demoApi`, and validity is kept |
| DemoApi.DemoStore.Serve | public/app.js:91-347 | each decided request updates the arrays and answers, or throws, as its route says, and keeps validity for well-read fields |
| DemoAdmin.TokenOf | public/admin.js:56 | `auth.replace('Bearer demo-', '')` on a header that starts with it: the text after the prefix |
| DemoAdmin.RoleOf | public/admin.js:60 | `user.role \|\| 'user'` is never empty |
| DemoAdmin.EmailOfDecoded | public/admin.js:57 | the e-mail part of a decoded token contains no colon |
| DemoAdmin.DemoUserRole | public/admin.js:53-62 | null exactly when the header does not start with `Bearer demo-`; otherwise a non-empty role |
| DemoAdmin.AdminRoleIff | public/admin.js:53-62 | the role is admin exactly when the token decodes and the first stored user with its e-mail has role admin |
| DemoAdmin.DemoTokenRole | public/admin.js:56-60 | a token of the form `btoa(email + ':' + stamp)` names that e-mail's first stored user |
| DemoAdmin.NoAdminWithoutUsers | public/admin.js:58-60 | with no stored users no header is admin |
| DemoAdmin.IdOf | public/admin.js:77 | `(?:\/(.+))?$` on what follows the collection name: no id, a slash and a non-empty id, or no match |
| DemoAdmin.MatchAdminPath | public/admin.js:77 | the collection and optional id the path pattern captures (properties in DemoAdmin.MatchAdminPathIff) |
| DemoAdmin.CollectionAt | public/admin.js:77 | the collection alternative found is a prefix of the rest of the path |
| DemoAdmin.MatchAdminPathIff | public/admin.js:77 | the pattern matches exactly `/api/admin/<collection>` with no id or with an id of one or more non-line-terminator characters |
| DemoAdmin.TargetPathMatches | public/admin.js:77 | a well-formed collection path is matched back to its collection and id |
| DemoAdmin.WithItems | public/admin.js:84-92 | writing one array leaves the other two unchanged |
| DemoAdmin.NewItem | public/admin.js:90 | the created item has every body field except `order`, a stamped `_id` unless the body gives one, and `order` = previous length + 1 |
| DemoAdmin.NewService | public/admin.js:142 | the created service has every body field and a stamped `ds` `_id` unless the body gives one |
| DemoAdmin.Merged | public/admin.js:99 | the merged item has the body's fields over the item's, and `_id` is forced to the path id |
| DemoAdmin.HasItemId | public/admin.js:96 | `i._id === id`: the item has that string `_id` |
| DemoAdmin.Replace | public/admin.js:96-101 | PUT by id: nothing when no item has the id, else the array with the first match merged (properties in DemoAdmin.ReplaceChangesFirstMatch) |
| DemoAdmin.Remove | public/admin.js:103-107 | DELETE by id: nothing when no item has the id, else the array without the first match (properties in DemoAdmin.RemoveDropsFirstMatch) |
| DemoAdmin.ReplaceChangesFirstMatch | public/admin.js:96-102 | PUT answers 404 exactly when no item has the id; otherwise only the first such item changes, into the merged item |
| DemoAdmin.RemoveDropsFirstMatch | public/admin.js:103-108 | DELETE answers 404 exactly when no item has the id; otherwise only the first such item is removed and the rest keep their order |
| DemoAdmin.SpliceOne | public/admin.js:105 | `splice(i, 1)` keeps the items before and after position `i` in order and loses only the item there |
| DemoAdmin.CallOf | public/admin.js:70-148 | the branch a path and method take, in the handler's order |
| DemoAdmin.CollectionStep | public/admin.js:82-109 | a collection request by an admin: list, create, update or delete |
| DemoAdmin.Apply | public/admin.js:70-148 | one routed request with its role: the arrays afterwards and the response |
| DemoAdmin.Step | public/admin.js:48-149 | `demoAdminApi`: the role read from the header and the routed request applied |
| DemoAdmin.CollectionPathsAreNotServicePaths | public/admin.js:110-148 | a collection path never reaches the services branches, so an unserved method on it ends at the final 404 |
| DemoAdmin.OnlyAddressedChanges | public/admin.js:84-145 | a request changes at most the array it addresses |
| DemoAdmin.NonAdminWritesNothing | public/admin.js:79-80 | without the admin role nothing is written, and every guarded route answers 403 |
| DemoAdmin.FailedCallWritesNothing | public/admin.js:70-148 | a request answered with neither 200 nor 201 writes nothing |
| DemoAdmin.PostAppendsOne | public/admin.js:89-94 | POST appends exactly one item at the end with `order` = new length; earlier items are unchanged |
| DemoAdmin.ServicesListIsPublic | public/admin.js:113-115 | `GET /api/services` needs no role and returns the stored services |
| DemoAdmin.UnknownPathNotFound | public/admin.js:148 | any other path answers 404 and writes nothing |
| DemoAdmin.NoWritesWithoutUsers | public/admin.js:53-62 | while the stored demo users are empty, no request changes the content |
| DemoAdmin.ParseFeatures | public/admin.js:390 | each parsed feature is non-empty, trimmed and a single line |
| DemoAdmin.FeaturesLineByLine | public/admin.js:390 | the features keep the order of the lines they come from |
| DemoAdmin.ShowFeatures | public/admin.js:359 | the features shown one per line, or empty without features |
| DemoAdmin.FeaturesRoundTrip | public/admin.js:359 | the form shows an item's clean features and saves them back unchanged |
| DemoAdmin.FeaturesStable | public/admin.js:359-390 | saving the form twice stores the same features as saving once |
| DemoAdmin.AdminStore.constructor | public/admin.js:85 | the store starts with the given arrays |
| DemoAdmin.AdminStore.Store | public/admin.js:92 | `setStorageArray` replaces one array |
| DemoAdmin.AdminStore.Push | public/admin.js:91 | `items.push` appends one item to one array |
| DemoAdmin.AdminStore.Put | public/admin.js:96-101 | the in-place update writes exactly what `Replace` specifies, or nothing when the id is absent |
| DemoAdmin.AdminStore.Delete | public/admin.js:103-107 | the splice writes exactly what `Remove` specifies, or nothing when the id is absent |
| DemoAdmin.AdminStore.Handle | public/admin.js:48-149 | the arrays and response are those of `demoAdminApi` |
| DemoAdmin.AdminStore.Serve | public/admin.js:70-148 | each decided request updates the arrays as its branch says |
| DemoAdmin.AdminStore.ServeCollection | public/admin.js:82-109 | a collection request by an admin updates the arrays as the collection branch says |

## Left out

- A lead-capture pipeline: no such code exists in the repository's source.
- DOM and UI code: rendering, translations, modals, animations.
- `fetch`, `apiFetch`/`adminFetch`, the async form handlers and Express setup.
- Database access through Prisma, bcrypt hashing and JWT signing and verification. Only the decisions around them are modelled.
- The base64 alphabet of `btoa`, and `atob` and `encodeURIComponent`, are parameters; their encodings are not modelled. What is modelled of `btoa` is that it throws on a character above U+00FF.
- The clock is a parameter: `Date.now()` is a natural number and the ISO time is a string. Stored `createdAt` values are integers ordered like the times they stand for, not ISO strings parsed by `new Date`.
- Local storage is the arrays themselves:
  - a stored value that is missing or not valid JSON, which `getStorageArray` reads as `[]`, is not modelled;
  - serialisation is not modelled;
  - records that are not objects are not modelled;
  - fields that are not strings are not modelled, except the admin items' number, boolean and string-list values.
- JSON key order in objects: maps have no order.
- A request body that is not a JSON object is not modelled.
- Text.Lower: maps only A-Z and U+0400-U+042F. JavaScript also maps À-Þ, Latin Extended, Greek, Armenian and the Cyrillic letters from U+0460 on, among them the Kyrgyz Ң, Ө and Ү. It maps 'İ' to two characters. All of these keep their case in the model.
- Text.Upper: maps only a-z and U+0430-U+045F. JavaScript also upper-cases the other scripts listed for Text.Lower, and maps 'ß' to `SS` and 'ı' to `I`; those characters keep their case in the model.
- Contact.IsValidEmail: agrees with the site only on addresses whose lower-casing Text.Lower gives. `a@b.İ` is one that differs: JavaScript lower-cases it to a two-code-unit top-level domain and accepts it, the model does not.
- ChatReply.RespondIgnoresUpperCase: stated only for messages of ASCII and U+0400-U+045F characters. Outside those, JavaScript's two mappings need not undo each other: `hı` upper-cases to `HI`, which is greeted, while `hı` is not.
- ChatReply.Reply: that every reply text is non-empty is not stated. The verifier cannot settle the length of these several-hundred-character literals within its resource limit.
- DemoApi.PositiveId: `Number()` on the PATCH path segment reads only plain decimals, with an optional `+` and surrounding white space. Exponents, hexadecimal and fractions are not read.
- Server.ParseInt: results above the largest finite double are not modelled. In JavaScript a numeral of more than 309 digits reads as `Infinity`, which is not finite.
- Server.OverviewLimit: such a numeral gives 25 in JavaScript, because `Infinity` fails `Number.isFinite`, but 200 in the model. A `limit` given more than once (`?limit=5&limit=7`) reaches `parseInt` as an array, read as the text `5,7`, which gives 5. A query value is a single string here, so this case is not modelled.
- Floating-point payment amounts are not modelled: they are kept as strings.
- DemoApi.SortByNewest: stability of `Array.prototype.sort` for equal times is not proved, only order and permutation.
- The success texts of the booking, payment and PATCH replies are not modelled, nor the payment notification text. The reply constructor stands for them.
- The overview's `user: null` field on payments is not modelled.
- Token verification beyond the `Bearer demo-` prefix: the public demo API checks nothing more, and the server's JWT checks are not part of this model.
- `window.QUANTUM_DEMO_ADMIN_EMAILS` (public/config.js:44) is set but never read by the modelled code.
- `public/admin.js` reads its demo users from `quantum_demo_users`, which nothing in the repository writes. The public client writes `kvantum_demo_users`, and without a `role`. The model therefore takes the admin panel's user array as a parameter, and `DemoAdmin.NoWritesWithoutUsers` states what happens while it is empty.
- The admin panel's non-demo screens and its own `buildApiUrl` are not modelled separately: that `buildApiUrl` is the same as the public client's, `Client.BuildApiUrl`.

## Findings

| source | as written | input that shows it | evidently intended | confidence | as-written member | corrected member |
|---|---|---|---|---|---|---|
| public/app.js:128-131 | register stores the user, then calls `btoa(email + ':' + Date.now())`, which throws on any character above U+00FF, so no session is answered; login at :149 throws the same way | `я@мир.рф`, which `isValidEmail` accepts: the user is stored, the handler throws, registering again answers "User already exists" and logging in throws | every accepted address gets a session, e.g. by encoding the text as UTF-8 before `btoa` | high; not executed | DemoApi.RegisterThrowsAfterStoring, exhibited by DemoApi.CyrillicAddressAccepted | DemoApi.RegisterThenLoginUtf8 |
| public/app.js:13-14 | app.js reads `window.KVANTUM_API_BASE_URL` and `KVANTUM_USE_DEMO_API`, but public/config.js:26 and :36 set the `QUANTUM_*` names, which public/admin.js:2-3 reads | host `x.github.io` with no override: config.js chooses `https://kvantum-api.vercel.app` with the demo API off; app.js reads base `""` and switches to the demo API | app.js reads the globals the configuration writes, as admin.js does | high; not executed | Client.AppSettingsAsWritten, exhibited by Client.GitHubPagesAsWritten | Client.ConfiguredSettings, proved by Client.ClientUsesConfiguredBase |
