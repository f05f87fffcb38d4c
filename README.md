# FloodGuard dashboard core, modelled in Dafny

FloodGuard is a flood-monitoring dashboard: users register water-level sensors, read their
readings on charts and tables, receive notifications and e-mails when a level is critical or a
sensor needs maintenance, and get a weekly report. This project models the logic of the
dashboard's core and proves properties of it. The modules are:

- **Notification pipeline**.
  - `NotificationService`: each business event writes one record into the `notifications`
    table. The maintenance sweep runs as a loop over the active sensors.
  - `EmailService`: the weekly report, the critical alert and the maintenance alert, with their
    payloads and subjects.
  - `WeeklyReportTemplate`: the e-mail's sections and `safeToFixed`.
- **Backend**. The backend is an in-memory `Backend.Store` with the tables the dashboard reads
  and writes. Each call takes an `Outcome` parameter (answered, error returned, or thrown), and
  a table changes only when the call answered.
- **E-mail transport**. It is a `Mailer` log of the e-mails handed to it, and whether a dispatch
  succeeds is a parameter.
- **Notifications page** (`NotificationsPage.Page`): mark one or all as read, delete, the tab
  filter, the unread counter and the icons.
- **Sign-in plumbing**:
  - `CreateProfile`: the existence check and the bounded retry loop with back-off delays.
  - `Middleware`: the route guard.
  - `AuthCallback`: the redirect decision tree and the order of the profile-creation fallbacks.
  - `UriEncoding`: `encodeURIComponent`/`decodeURIComponent` for the error parameter.
  - `LoginForm`: the login page's error banner, which reads that parameter.
- **Geocoding** (`Geocoding`): normalise the address, then an exact key, then the first partial
  match in table order, then the fallback.
- **Settings form** (`NotificationSettings.Form`): the lossy settings-to-row and row-to-settings
  mappings, the single-field update, and the test report sent through the notification service.
- **Readings**:
  - `DayTable`: the per-day grouping that `WaterLevelChartReal` and `WaterLevelChart` sort and cap.
  - `WaterLevelDetailModal`: a day's readings, its statistics and the groups by sensor.
  - `DashboardOverview`: the status counts, the sensors with readings and the fetch sequence.
- **Sensor lists** (`SensorsPage`, `SensorsTable`): search and status labels.
- **Upload validator** (`AvatarUpload.Picker`).
- **Environment check** (`CheckEnv`): the `.env.local` line parser and the decision between the
  fix steps and the confirmation.
- **Shared modules**:
  - `Text`: JavaScript string operations.
  - `Numbers`: `String(x)` and `toFixed`.
  - `Sequences`: `filter`, `slice`, a stable `sort` and the `reduce` grouping idiom.
  - `Records`: the table rows.

The clock, randomness, timers and the hosted backend's answers are parameters. Displayed
numbers are fixed-point decimals, held as an `int` count of thousandths. Dates are
(day, month, year) triples, or the formatted text a caller supplies.

## Model

| member | source | states |
|---|---|---|
| Text.Lower | app/dashboard/sensors/page.tsx:53-55 | `toLowerCase` keeps the length and lowers each character by its Latin-1 case pair |
| Text.LowerIdempotent | app/dashboard/sensors/page.tsx:53-55 | lowering an already lowered text changes nothing, so lowering the search term twice is harmless |
| Text.Upper | components/dashboard/avatar-upload.tsx:90 | `toUpperCase` keeps the length and raises each character by its Latin-1 case pair |
| Text.UpperIdempotent | components/dashboard/avatar-upload.tsx:90 | upper-casing twice is upper-casing once, and no lower-case Latin-1 letter is left |
| Text.Trim | scripts/check-env.js:32 | `trim()`: the text without its leading and trailing white space; `TrimContent` states it is the slice `s[a..b]` with only white space before `a` and from `b` on, and neither end of the slice white space |
| Text.TrimStartDrops | scripts/check-env.js:32 | the start is trimmed by dropping exactly the leading run of white space: `s[k..]` with all of `s[..k]` white space and `s[k]`, if any, not |
| Text.TrimEndDrops | scripts/check-env.js:32 | the end is trimmed by dropping exactly the trailing run of white space: `s[..b]` with all of `s[b..]` white space and `s[b-1]`, if any, not |
| Text.TrimContent | scripts/check-env.js:32 | `trim()` is the slice `s[a..b]`: every character before `a` and from `b` on is white space, and a non-empty slice starts and ends with a character that is not |
| Text.TrimEmptyIff | scripts/check-env.js:32 | `line.trim()` is empty exactly when every character of the line is white space |
| Text.TrimIdempotent | lib/geocoding-service.ts:69 | trimming twice is trimming once |
| Text.ContainsIff | app/dashboard/sensors/page.tsx:53-55 | `includes` holds exactly when the needle occurs at some position of the text |
| Text.ContainsLowered | app/dashboard/sensors/page.tsx:53-55 | an occurrence survives lowering both sides, so the case-insensitive search finds every exact match |
| Text.ContainsEmpty | app/dashboard/sensors/page.tsx:53-55 | every text includes the empty string, so an empty search term matches everything |
| Text.ContainsShorter | lib/geocoding-service.ts:78 | a needle longer than the text never occurs in it |
| Text.Take | components/dashboard/avatar-upload.tsx:90 | `substring(0, n)` is a prefix of the text of length `min(n, length)` |
| Text.IndexOf | scripts/check-env.js:36 | the index found holds the first occurrence of the character, or is the length when there is none |
| Text.Split | scripts/check-env.js:32 | `split` on one character gives at least one piece and no piece holds the separator |
| Text.JoinSplit | scripts/check-env.js:32 | joining the pieces of a split with the separator gives the text back |
| Text.SplitHead | scripts/check-env.js:36 | the first piece of a split is the text before the first separator |
| Text.NatToStringRoundTrip | components/dashboard/water-level-detail-modal.tsx:47 | the decimal text of a natural number reads back as that number |
| Text.PadDigitsValue | components/email/weekly-report-template.tsx:40 | left-padding digits with zeros does not change their value |
| Numbers.NumberText | lib/email-service.ts:88 | `String(x)` for a value of thousandths; it reads back as the value (`NumberTextRoundTrip`) |
| Numbers.ParseNumber | lib/email-service.ts:88 | reads a decimal back, the partner against which `NumberText` is proved to lose nothing |
| Numbers.ToFixed | components/email/weekly-report-template.tsx:40 | `toFixed(d)` for d up to 3; characterised by `RoundedUnitsNearest`, `ToFixedDigits` and `ToFixedValue` |
| Numbers.NumberTextRoundTrip | lib/email-service.ts:88 | the text `${level}` gives for a level reads back as the same level: the message loses nothing |
| Numbers.RoundedUnitsNearest | components/email/weekly-report-template.tsx:40 | `toFixed(d)` rounds to the nearest multiple of 10^-d, a half going up |
| Numbers.ToFixedDigits | components/email/weekly-report-template.tsx:40 | `toFixed(d)` with d > 0 always writes a point followed by exactly d digits |
| Numbers.ToFixedValue | components/email/weekly-report-template.tsx:40 | the digits before and after the point of `toFixed(d)` spell the rounded value |
| Sequences.Filter | app/dashboard/notifications/page.tsx:138 | `filter` keeps only elements that pass the test and never lengthens the list |
| Sequences.FilterMembers | app/dashboard/notifications/page.tsx:138 | an element is in the filtered list exactly when it is in the list and passes the test |
| Sequences.FilterIsSubsequence | app/dashboard/notifications/page.tsx:138 | `filter` keeps the order of the list |
| Sequences.FilterPartition | app/dashboard/notifications/page.tsx:138 | a filter and its opposite together hold every element of the list exactly once |
| Sequences.CountDisjoint3 | app/dashboard/page.tsx:74-81 | counts under three mutually exclusive status tests add up to at most the list's length |
| Sequences.Take | app/dashboard/page.tsx:283 | `slice(0, n)` holds the first `min(n, length)` elements in their order |
| Sequences.Reverse | components/dashboard/water-level-chart-real.tsx:49 | `reverse` puts element i at position length - 1 - i |
| Sequences.MinOr0 | components/dashboard/water-level-detail-modal.tsx:36 | the minimum of a non-empty list is one of its elements and no element is smaller; 0 for an empty list |
| Sequences.MaxOr0 | components/dashboard/water-level-detail-modal.tsx:37 | the maximum of a non-empty list is one of its elements and no element is larger; 0 for an empty list |
| Sequences.SortBy | components/dashboard/water-level-chart-real.tsx:90-97 | the sort by a numeric key returns a permutation of the list |
| Sequences.SortByAscending | components/dashboard/water-level-chart-real.tsx:90-97 | the sorted list is ordered by the key |
| Sequences.SortByStable | components/dashboard/water-level-detail-modal.tsx:182 | the sort is stable, as `Array.prototype.sort` is: for every key, the elements with that key come out in the order they went in |
| Sequences.TakeSorted | components/dashboard/water-level-chart-real.tsx:90-98 | the first n after sorting are elements of the list, and every element left out has a key no smaller than any kept |
| Sequences.Keys | components/dashboard/water-level-chart-real.tsx:57-67 | every key of the grouped object belongs to some element of the list |
| Sequences.KeysExact | components/dashboard/water-level-chart-real.tsx:57-67 | each key appears once, and every element's key is a key of the groups |
| Sequences.MembersExact | components/dashboard/water-level-chart-real.tsx:57-67 | a group holds exactly the elements with its key |
| Sequences.MembersIsSubsequence | components/dashboard/water-level-detail-modal.tsx:41-58 | each group keeps the order in which the readings were pushed |
| Sequences.MembersFirst | components/dashboard/water-level-detail-modal.tsx:41-58 | the group of a key starts with the first element with that key, the one that created the group |
| Sequences.GroupsCoverAll | components/dashboard/water-level-detail-modal.tsx:41-58 | the groups' sizes add up to the list's length, so no reading is lost or counted twice |
| Sequences.GroupBy | components/dashboard/water-level-chart-real.tsx:57-67 | the `reduce` loop builds exactly the keys in order of first appearance and, for each, the group of its elements |
| Records.DayNumberOrder | components/dashboard/water-level-chart-real.tsx:92-96 | comparing valid dates by day number agrees with calendar order, and equal numbers mean equal dates |
| UriEncoding.Encode | app/auth/callback/route.ts:16 | `encodeURIComponent`: the text with every character outside the unreserved set written as the escapes of its UTF-8 bytes; it contains only safe characters (`EncodeIsSafe`) and is inverted by `Decode` (`DecodeEncode`) |
| UriEncoding.Decode | components/auth/login-form.tsx:31 | `decodeURIComponent`: undoes the escapes, and is `None` exactly where JavaScript throws `URIError` (`Utf8At`, `DecodeStopsAtBadEscape`) |
| UriEncoding.DecodeStopsAtBadEscape | components/auth/login-form.tsx:31 | `decodeURIComponent` throws when the first '%' of the text does not start a well-formed escape |
| UriEncoding.HexDigit | app/auth/callback/route.ts:16 | an escape digit is an upper-case hex digit |
| UriEncoding.HexRoundTrip | app/auth/callback/route.ts:16 | every hex digit reads back as the value it was written for |
| UriEncoding.Percent | app/auth/callback/route.ts:16 | a byte escape is '%' followed by two hex digits |
| UriEncoding.EncodeIsSafe | app/auth/callback/route.ts:16-34 | encoded text holds only unreserved characters, '%' and hex digits, so it never ends or splits the `error` query parameter |
| UriEncoding.EncodeUnreserved | app/auth/callback/route.ts:16-34 | text made only of unreserved characters is its own encoding |
| UriEncoding.ByteAt | app/auth/callback/route.ts:16 | a well-formed escape reads back as a byte below 256 |
| UriEncoding.Utf8At | app/auth/callback/route.ts:16 | a decoded UTF-8 sequence is a Unicode scalar value taking at least one escape; malformed, over-long, surrogate and out-of-range sequences do not decode |
| UriEncoding.Utf8RoundTrip | app/auth/callback/route.ts:16 | the escapes of a character decode to its code point, consuming exactly those escapes |
| UriEncoding.TwoBytes | app/auth/callback/route.ts:16 | a two-byte sequence decodes to its code point |
| UriEncoding.ThreeBytes | app/auth/callback/route.ts:16 | a three-byte sequence decodes to its code point exactly when that is not a surrogate |
| UriEncoding.FourBytes | app/auth/callback/route.ts:16 | a four-byte sequence decodes to its code point |
| UriEncoding.DecodeStep | app/auth/callback/route.ts:16 | decoding one encoded character followed by more text yields that character before the rest's decoding |
| UriEncoding.DecodeEncode | app/auth/callback/route.ts:16-34 | decoding the encoding of any text gives the text back |
| UriEncoding.EncodeInjective | app/auth/callback/route.ts:16-34 | two different messages never give the same parameter |
| Middleware.Guard | middleware.ts:5-36 | `middleware(req)`: the redirect to /login, the redirect to /dashboard or the pass, decided from the session and the path; characterised both ways by `GuardOutcomes` |
| Middleware.GuardOutcomes | middleware.ts:5-36 | the three outcomes, each characterised by session and path: to /login iff no session and a private path; to /dashboard iff a session on a public path outside /auth/; through otherwise; a redirect keeps the origin and query |
| Middleware.PublicByPrefix | middleware.ts:14-17 | the public test is on prefixes, so any path that starts with a public route is public |
| Middleware.AuthPagesPass | middleware.ts:29 | a signed-in user stays on the password-reset and callback pages |
| Middleware.DashboardIsPrivate | middleware.ts:14-17 | /dashboard starts with none of the public prefixes |
| Middleware.NoRedirectLoop | middleware.ts:21-33 | a redirect's target is always let through, so the guard never redirects twice in a row |
| AuthCallback.Callback | app/auth/callback/route.ts:7-100 | `GET(request)`: the redirect location, the backend calls in order and the logging decision, for every combination of the query and the backend's answers; its properties are the lemmas below |
| AuthCallback.ProfileCalls | app/auth/callback/route.ts:40-87 | the profile select, the admin create when no profile was found, and the direct insert when the admin call failed, stopping at a throw; characterised by `DirectInsertOnlyAfterAdminError` and `CallOrder` |
| AuthCallback.ErrorParam | app/auth/callback/route.ts:14-35 | the value of a login redirect's `error` parameter with its escapes undone once, as `searchParams.get` returns it |
| AuthCallback.LoginRedirectReadsBack | app/auth/callback/route.ts:16-34 | the `error` parameter of a login redirect decodes once to exactly the message, and holds no character that could end it |
| AuthCallback.FixedMessagesPlain | app/auth/callback/route.ts:22-98 | "no_code" and "auth_exception" need no escapes |
| AuthCallback.ProviderErrorWins | app/auth/callback/route.ts:14-17 | an `error` parameter wins: no backend call, and the login redirect's parameter reads the description, or the error when the description is absent or empty |
| AuthCallback.MissingCode | app/auth/callback/route.ts:20-23 | without an error or a code, the login redirect's parameter reads "no_code" and nothing is called |
| AuthCallback.ExchangeProblems | app/auth/callback/route.ts:25-98 | a failed exchange puts its message in the login redirect and an exception puts "auth_exception"; the exchange was the only call, or no call was made when setting up the client threw first |
| AuthCallback.SessionGoesToDashboard | app/auth/callback/route.ts:40-95 | once the code is exchanged the handler always lands on /dashboard, whatever the profile steps return or throw |
| AuthCallback.DirectInsertOnlyAfterAdminError | app/auth/callback/route.ts:56-83 | the direct profile insert happens iff a signed-in user's check found no profile without throwing and the admin call returned an error |
| AuthCallback.CallOrder | app/auth/callback/route.ts:30-87 | the calls follow the order exchange, select, admin create, direct insert, each at most once, stopping where the handler stops; the profile calls are about the exchanged user |
| AuthCallback.NotFoundIsNoError | app/auth/callback/route.ts:49-56 | "no row" from the profile check is not logged as an error, and the handler goes on exactly as with no error |
| LoginForm.BannerAsWritten | components/auth/login-form.tsx:28-33 | the error banner as written: `decodeURIComponent` applied to the already decoded parameter, throwing on a malformed escape |
| LoginForm.BannerOf | components/auth/login-form.tsx:28-33 | the banner with the single decoding `get` already does: the parameter's value when it is not empty |
| LoginForm.BannerShowsMessage | components/auth/login-form.tsx:28-33 | decoded once, the banner of a login redirect shows exactly the message the callback sent, and nothing for an empty one |
| LoginForm.EncodedMessageShownDecoded | components/auth/login-form.tsx:28-33 | as written, a message that is itself the encoding of a text is shown as that text, where a single decoding shows the message |
| LoginForm.BadPercentThrows | components/auth/login-form.tsx:28-33 | as written, a message whose first '%' starts no escape makes the effect throw `URIError`, where a single decoding shows the message |
| LoginForm.SpaceEscapeShownAsSpace | components/auth/login-form.tsx:28-33 | as written, the message "%20" is shown as a single space |
| LoginForm.PercentFailedThrows | components/auth/login-form.tsx:28-33 | as written, the message "100% failed" makes the effect throw instead of showing it |
| Geocoding.Normalize | lib/geocoding-service.ts:69 | `address.toLowerCase().trim()`; lower-case trimmed text is its own normal form (`NormalizeLower`) |
| Geocoding.Geocode | lib/geocoding-service.ts:9-97 | what `geocodeAddress` returns with the own-key exact lookup: the exact entry, else the first partial match, else the fallback (`GeocodeExact`, `GeocodePartial`, `GeocodeFallback`) |
| Geocoding.GeocodeAsWritten | lib/geocoding-service.ts:69-81 | `geocodeAddress` as written, where the exact lookup also finds members inherited from `Object.prototype`; it agrees with `Geocode` outside those names (`AsWrittenAgrees`) |
| Geocoding.KeyIndex | lib/geocoding-service.ts:72-74 | the exact lookup finds the entry whose key equals the normalised address, and reports none only when no key equals it |
| Geocoding.FirstMatch | lib/geocoding-service.ts:77-81 | the partial lookup returns the first entry in table order whose key is part of the address or contains it; no earlier key does |
| Geocoding.Fallback | lib/geocoding-service.ts:84-92 | the fallback keeps the address as typed with ", São Paulo, SP" appended, and lies within half the 0.05° variation of the city centre in each direction |
| Geocoding.GeocodeAddress | lib/geocoding-service.ts:9-97 | the loop over the table returns exactly the place of the lookup specification: exact key, else first partial match, else the fallback; the exact lookup reads only the table's own keys (the corrected lookup), so it differs from the source on "constructor" and "__proto__", and `AsWrittenAgrees` bounds the difference |
| Geocoding.GeocodeExact | lib/geocoding-service.ts:69-74 | an address whose normal form is a key resolves to that key's entry |
| Geocoding.GeocodePartial | lib/geocoding-service.ts:77-81 | an address that is no key resolves to the first entry in table order whose key matches it |
| Geocoding.GeocodeFallback | lib/geocoding-service.ts:83-92 | an address that is no key and matches none resolves to the fallback for that address |
| Geocoding.KeysDistinct | lib/geocoding-service.ts:15-66 | no two entries share a key |
| Geocoding.NormalizeLower | lib/geocoding-service.ts:69 | a lower-case address without white space at its ends is its own normal form |
| Geocoding.NotAKeyByLength | lib/geocoding-service.ts:15-66 | a string whose length no key has matches no key exactly |
| Geocoding.ExactExample | lib/geocoding-service.ts:16-74 | "Rio Tietê", typed with capitals, resolves to the Rio Tietê entry |
| Geocoding.PartialExample | lib/geocoding-service.ts:77-81 | "rio tietê - ponte das bandeiras" resolves to the Rio Tietê entry, the first key in table order that it contains |
| Geocoding.BlankIsFirstEntry | lib/geocoding-service.ts:69-81 | an empty or blank address resolves to the first entry, because every key contains "" |
| Geocoding.BlankNormalizesEmpty | lib/geocoding-service.ts:69 | a blank address normalises to "" |
| Geocoding.ConstructorIsNotAPlace | lib/geocoding-service.ts:72-73 | as written, "Constructor" returns the inherited `Object.prototype.constructor` member, which is not a place |
| Geocoding.AsWrittenAgrees | lib/geocoding-service.ts:72-81 | the lookup as written and the own-key lookup agree on every address whose normal form is not an `Object.prototype` member |
| Geocoding.GeocodeIsAPlace | lib/geocoding-service.ts:9-92 | with the own-key lookup every address resolves to a known entry or to its fallback |
| Backend.SetRead | app/dashboard/notifications/page.tsx:57-60 | an update of the read flag keeps every row in place and sets the flag on exactly the selected rows |
| Backend.SetReadUnreadIsAll | app/dashboard/notifications/page.tsx:99-102 | marking only the unread rows leaves the same table as marking every row |
| Backend.Store.constructor | lib/notification-service.ts:14 | a backend starts with the given sensors and readings and no notifications or settings |
| Backend.Store.InsertNotification | lib/notification-service.ts:15-23 | an answered insert appends one unread row with a fresh id; otherwise the table is unchanged |
| Backend.Store.UpdateRead | app/dashboard/notifications/page.tsx:57-60 | an answered update marks the selected rows read; otherwise the table is unchanged |
| Backend.Store.DeleteNotification | app/dashboard/notifications/page.tsx:75 | an answered delete removes the rows with the id; otherwise the table is unchanged |
| Backend.Store.UpsertSettings | components/dashboard/notification-settings.tsx:116 | an answered upsert sets the caller's settings row, inserted or replaced by user id; otherwise nothing changes |
| CreateProfile.Delay | app/actions/create-profile.ts:47-58 | the wait after failed attempt k: 1000·(k+1) ms after a returned error, 1000·(k+2) ms after a throw |
| CreateProfile.Answers | app/actions/create-profile.ts:34-45 | `!insertError`: an attempt succeeds when it answers with no error value or a falsy one; characterised by `FirstAnswered` and `RetryShape` |
| CreateProfile.FinalError | app/actions/create-profile.ts:63 | the final text: the `message` of an `Error`, `String(value)` of another truthy value, "Failed after multiple attempts" for `null` or a falsy value; stated case by case in `RetryShape` |
| CreateProfile.CaughtError | app/actions/create-profile.ts:65-71 | the outer catch's text: the `message` of an `Error`, otherwise "Unknown error creating profile"; used by `CreateUserProfile`'s contract |
| CreateProfile.RetryFrom | app/actions/create-profile.ts:32-64 | the insert phase from attempt k on: the first attempt without an error succeeds, otherwise each failure adds its wait and keeps its error value, and the phase reports the text of the value kept last (`FinalError`); characterised by `RetryFromShape` |
| CreateProfile.Retry | app/actions/create-profile.ts:29-64 | the whole insert phase from the first attempt, with `error` starting as `null`; characterised by `RetryShape` |
| CreateProfile.FirstAnswered | app/actions/create-profile.ts:32-45 | the attempt that succeeds is the first answered one at or after `k` (none before it answers), or the limit when none does |
| CreateProfile.RetryFromShape | app/actions/create-profile.ts:32-64 | from attempt `k`, the phase succeeds iff a remaining attempt answers without an error, ending with that attempt; it waits once after each failed attempt for that failure's delay (1000·(k+1) ms for a returned error, 1000·(k+2) ms for a thrown one); a failed phase made all three attempts and reports `FinalError` of the third failure's error value (of the value kept before, when no attempt is left) |
| CreateProfile.RetryShape | app/actions/create-profile.ts:29-64 | between one and three inserts; success iff one of the three answers without an error, right after the first that does; one wait per failed attempt, the third included; a failed phase reports the third failure's error value as line 63 does: the `message` of an `Error`, `String(value)` of any other truthy value (a plain error object gives "[object Object]"), and "Failed after multiple attempts" for a falsy one, which only a throw can give |
| CreateProfile.ResumedStep | app/actions/create-profile.ts:47-57 | one failed attempt moves its wait from the remaining phase to the waits already made (the loop invariant) |
| CreateProfile.CreateUserProfile | app/actions/create-profile.ts:7-72 | a throwing lookup fails with the thrown `Error`'s message, or the generic text for any other value (`CaughtError`), and no insert; the lookup's error is logged iff it is not the "no row" code; an existing profile gives "Profile already exists" with no insert; otherwise the outcome (final error text included), attempts and waits are those of the insert phase |
| NotificationsPage.IconFor | app/dashboard/notifications/page.tsx:118-136 | `getNotificationIcon`: the category decides first, then the type; characterised by `IconCases` |
| NotificationsPage.Filtered | app/dashboard/notifications/page.tsx:138-144 | `filteredNotifications` for a tab; characterised by `FilteredExactly` and `FilteredInOrder` |
| NotificationsPage.UnreadCount | app/dashboard/notifications/page.tsx:146 | `unreadCount`: the number of unread entries; zero exactly when the mark-all button is disabled (`MarkAllDisabledIff`) |
| NotificationsPage.MarkRead | app/dashboard/notifications/page.tsx:66 | the list after `markAsRead(id)`; characterised by `MarkReadEffect` |
| NotificationsPage.IconCases | app/dashboard/notifications/page.tsx:118-136 | the icon, characterised both ways: the orange triangle iff category "alert" or a warning outside maintenance; the yellow circle iff category "maintenance"; the green check, red circle or blue info by type otherwise, blue being the default |
| NotificationsPage.FilteredExactly | app/dashboard/notifications/page.tsx:138-144 | each tab keeps exactly its entries: unread ones, or those of category "alert", "maintenance" or "report"; any other tab keeps the whole list |
| NotificationsPage.FilteredInOrder | app/dashboard/notifications/page.tsx:138-144 | every tab shows entries of the list in the list's order |
| NotificationsPage.MarkAllDisabledIff | app/dashboard/notifications/page.tsx:146-158 | "mark all as read" is disabled exactly when every entry is read |
| NotificationsPage.MarkReadEffect | app/dashboard/notifications/page.tsx:66 | marking one id read keeps the length and order, sets the flag on exactly the entries with that id, and is idempotent |
| NotificationsPage.MarkAllEffect | app/dashboard/notifications/page.tsx:108 | after marking all, every entry is the same but read, and the unread count is zero |
| NotificationsPage.DeleteEffect | app/dashboard/notifications/page.tsx:81 | deleting an id removes exactly the entries with that id and keeps the rest in order |
| NotificationsPage.Page.constructor | app/dashboard/notifications/page.tsx:26-28 | the page starts with no entries, loading, on tab "all" |
| NotificationsPage.Page.Fetch | app/dashboard/notifications/page.tsx:36-52 | a successful load shows the table's rows newest first; an error or exception keeps the list; loading ends either way |
| NotificationsPage.Page.MarkAsRead | app/dashboard/notifications/page.tsx:54-70 | on success both the backend row and the local entries with the id become read; on an error neither changes |
| NotificationsPage.Page.DeleteNotification | app/dashboard/notifications/page.tsx:72-94 | on success the rows with the id leave both the backend and the page and a success toast shows; on an error nothing changes but the error toast |
| NotificationsPage.Page.MarkAllAsRead | app/dashboard/notifications/page.tsx:96-116 | on success the backend marks its unread rows read, the page marks every entry read and a toast shows; on an error nothing changes and no toast shows |
| NotificationsPage.Page.SetFilter | app/dashboard/notifications/page.tsx:169 | choosing a tab sets the filter to it |
| WeeklyReportTemplate.SafeToFixed | components/email/weekly-report-template.tsx:36-41 | `safeToFixed`: "0.00" for anything that is not a finite number, `toFixed` otherwise (`SafeToFixedFallback`) |
| WeeklyReportTemplate.Table | components/email/weekly-report-template.tsx:260-285 | the sensor table's rows, one per sensor in order (`SensorTableRows`, `RowDefaults`) |
| WeeklyReportTemplate.Render | components/email/weekly-report-template.tsx:43-360 | the e-mail section by section; its properties are `AlertsSection`, `LinksPresent` and `SensorTableRows` |
| WeeklyReportTemplate.SafeToFixedFallback | components/email/weekly-report-template.tsx:36-41 | with 0 or 1 decimals, `safeToFixed` prints "0.00" exactly when the value is missing or not a number, so the fallback cannot be mistaken for a real value there |
| WeeklyReportTemplate.CountText | components/email/weekly-report-template.tsx:229-237 | a count prints "0" exactly when it is missing, not a number, or zero (`x \|\| 0`) |
| WeeklyReportTemplate.StatusClass | components/email/weekly-report-template.tsx:268-273 | the row's style is "status-active" iff the status is "active" and "status-maintenance" iff it is "maintenance" |
| WeeklyReportTemplate.StatusLabel | components/email/weekly-report-template.tsx:276-280 | the label is "Ativo" iff active, "Manutenção" iff maintenance, "Inativo" for every other status |
| WeeklyReportTemplate.OrDefault | components/email/weekly-report-template.tsx:263-265 | a name or location prints as given when it is non-empty, and the non-empty default otherwise |
| WeeklyReportTemplate.SensorTableRows | components/email/weekly-report-template.tsx:260-286 | the status table is the fourth section and has exactly one row per sensor, in order; missing sensors give no rows |
| WeeklyReportTemplate.AlertsSection | components/email/weekly-report-template.tsx:310-323 | the alerts section is present iff there is at least one alert, with one line per alert in order |
| WeeklyReportTemplate.LinksPresent | components/email/weekly-report-template.tsx:327-355 | the download, dashboard and settings links are in every report |
| WeeklyReportTemplate.RowDefaults | components/email/weekly-report-template.tsx:263-283 | an empty name or location shows its default text, a missing count shows "0" and a missing average "0.00m" |
| EmailService.WeeklyEmail | lib/email-service.ts:40-66 | the weekly e-mail: recipient, subject with the period, and the report built from the payload (`WeeklyData`, `WeeklySubject`) |
| EmailService.CriticalEmail | lib/email-service.ts:68-103 | the critical-level e-mail; characterised by `CriticalEmailContent` |
| EmailService.MaintenanceEmail | lib/email-service.ts:105-140 | the maintenance e-mail; characterised by `MaintenanceEmailContent` |
| EmailService.OrZero | lib/email-service.ts:49-51 | `x \|\| 0` on a number is always finite and keeps a finite value |
| EmailService.WeeklyData | lib/email-service.ts:40-57 | the data rendered carries the user and the period as given, one sensor row per input sensor, a sensor total equal to the number of sensors, an active total equal to the number of sensors with status "active", and the alert list (empty when missing) |
| EmailService.ActiveAtMostTotal | lib/email-service.ts:49-50 | the summary never counts more active sensors than sensors |
| EmailService.WeeklyDefaults | lib/email-service.ts:47-56 | missing sensors, alerts and totals become an empty list, an empty list and 0; the temperature, turbidity and conductivity averages are 19.5, 6.2 and 245 whatever the input |
| EmailService.WeeklyRowsShowNoFigures | lib/email-service.ts:47 | every sensor row of a report built from table rows shows "0" readings and "0.00m", because the rows carry neither figure |
| EmailService.WeeklySubject | lib/email-service.ts:63 | the weekly subject contains both dates of the period |
| EmailService.Lines | lib/email-service.ts:86-90 | an alert box's lines include the sensor line and the level or reason line |
| EmailService.CriticalEmailContent | lib/email-service.ts:68-103 | the critical e-mail goes to the user; its subject is the fixed prefix followed by exactly the sensor name, and its lines name the sensor and the level in metres |
| EmailService.MaintenanceEmailContent | lib/email-service.ts:105-140 | the maintenance e-mail goes to the user; its subject is the fixed prefix followed by exactly the sensor name, and its lines name the sensor and the reason |
| EmailService.Mailer.constructor | lib/email-service.ts:11 | a transport starts with nothing sent |
| EmailService.Mailer.Send | lib/email-service.ts:12-38 | the e-mail is handed over (appended to the log) and the result is `true` iff the dispatch is delivered; a throw inside gives `false` |
| EmailService.Mailer.SendWeeklyReport | lib/email-service.ts:40-66 | exactly the weekly e-mail built from the input is sent, and the result is the dispatch's success |
| EmailService.Mailer.SendCriticalAlert | lib/email-service.ts:68-103 | exactly the critical e-mail is sent, and the result is the dispatch's success |
| EmailService.Mailer.SendMaintenanceAlert | lib/email-service.ts:105-140 | exactly the maintenance e-mail is sent, and the result is the dispatch's success |
| NotificationService.Stale | lib/notification-service.ts:121-127 | a sensor is alerted on when its readings query answered with no reading in the last 24 hours or gave `null` data |
| NotificationService.Targets | lib/notification-service.ts:120-138 | the stale sensors among the first n swept, in order; `TargetsStep` relates n and n+1 |
| NotificationService.Swept | lib/notification-service.ts:108-142 | the sensors the sweep alerts on: the active ones with stale readings, up to the first throwing query; `CheckSensorMaintenance` is proved against it |
| NotificationService.CreateNotification | lib/notification-service.ts:5-35 | exactly one unread record with the given fields and the next id is appended iff the insert answers without error, and the result is `true` exactly then; an error or an exception leaves the table as it was and gives `false` |
| NotificationService.SendCriticalLevelAlert | lib/notification-service.ts:37-50 | a "warning"/"alert" record naming the sensor and level, linking to /dashboard/sensors, is written when the insert answers, and the critical e-mail is handed to the transport in every case |
| NotificationService.SendMaintenanceAlert | lib/notification-service.ts:52-65 | a "warning"/"maintenance" record is written when the insert answers, and the maintenance e-mail is sent in every case |
| NotificationService.WeeklyInputFor | lib/notification-service.ts:72-83 | the report data always has a sensor list, an empty alert list and a finite reading total, and every sensor in it belongs to the caller |
| NotificationService.WeeklyTotalIgnoresOwner | lib/notification-service.ts:74-81 | the reading total counts every reading of the last seven days whoever owns the sensor: one more such reading raises it by one |
| NotificationService.WeeklyNoticeKind | lib/notification-service.ts:89-97 | the report record is in category "report", and its type is "success" iff the e-mail went out, "error" iff it did not |
| NotificationService.SendWeeklyReportNotification | lib/notification-service.ts:67-104 | a query that throws ends with `false`, no e-mail and no record; otherwise the weekly e-mail built from the caller's sensors and the week's readings is sent, the result is `true` iff it was delivered, and one record of that outcome is written when its insert answers |
| NotificationService.FirstThrow | lib/notification-service.ts:120-142 | the position where the sweep stops is the first readings query that throws (no earlier one throws), or the end of the list |
| NotificationService.CheckSensorMaintenance | lib/notification-service.ts:107-143 | the e-mails sent are one maintenance alert per active sensor without readings in the last 24 hours (an errored query counts as none), in order, up to the first throwing query, and only when someone is signed in; the records written are the matching drafts whose inserts answered, addressed to each sensor's owner |
| NotificationService.AlertIfStale | lib/notification-service.ts:121-137 | one turn of the sweep alerts iff the sensor's readings are stale and a user is signed in, sending exactly that sensor's maintenance e-mail and writing at most its one record |
| NotificationService.SweepTurn | lib/notification-service.ts:120-139 | one loop turn preserves the sweep's progress invariant and advances to the next sensor |
| NotificationService.ProgressStep | lib/notification-service.ts:120-139 | the sweep's invariant (e-mails and records so far are those of the stale sensors swept so far) is preserved by one turn |
| NotificationService.ProgressEnd | lib/notification-service.ts:120-142 | when the loop ends, at the last sensor or the first throwing query, the e-mails and records are exactly those of the stale sensors before that point |
| NotificationService.TargetsStep | lib/notification-service.ts:127 | the stale sensors among the first i+1 are those among the first i, plus sensor i when its readings are stale |
| NotificationService.AlertStep | lib/notification-service.ts:131-136 | alerting one more sensor adds exactly its maintenance e-mail and, when its insert answers, its one record |
| NotificationSettings.Update | components/dashboard/notification-settings.tsx:180-188 | `updateSetting`: a copy with one field replaced; characterised by `UpdateOnlyThatField` and `UpdateLastWins` |
| NotificationSettings.RowOf | components/dashboard/notification-settings.tsx:104-114 | the `email_settings` row `handleSave` writes; its round trip with `SettingsOf` is `SaveLoadKeeps` |
| NotificationSettings.SettingsOf | components/dashboard/notification-settings.tsx:67-91 | the settings `loadSettings` builds from a row (`LoadOverrides`, `SaveLoadIsLossy`) |
| NotificationSettings.UpdateOnlyThatField | components/dashboard/notification-settings.tsx:180-188 | an update changes exactly the one field: every other field of every group reads as before, and no group or key disappears |
| NotificationSettings.UpdateLastWins | components/dashboard/notification-settings.tsx:180-188 | updating a field twice keeps the last value, and setting a field to the value it has changes nothing |
| NotificationSettings.SaveLoadKeeps | components/dashboard/notification-settings.tsx:67-114 | saving then loading keeps the three `enabled` flags, the threshold, the report day and time, and the water-level e-mail flag |
| NotificationSettings.LoadOverrides | components/dashboard/notification-settings.tsx:67-91 | a loaded form has the row's one e-mail flag in all three e-mail groups, push on for water-level and maintenance alerts, "immediate" frequency, and the fixed system group, whatever was edited |
| NotificationSettings.SaveLoadIsLossy | components/dashboard/notification-settings.tsx:21-114 | the round trip loses edits: the starting settings, saved and loaded, do not come back as they were |
| NotificationSettings.Form.constructor | components/dashboard/notification-settings.tsx:21-48 | the form starts with the default settings, not loading and not sending a test report |
| NotificationSettings.Form.UpdateSetting | components/dashboard/notification-settings.tsx:180-188 | the form's settings become the one-field update of the old ones |
| NotificationSettings.Form.LoadSettings | components/dashboard/notification-settings.tsx:56-96 | the user's row, when the query answers with one, replaces the settings; no row, an error or an exception leaves them untouched |
| NotificationSettings.Form.HandleSave | components/dashboard/notification-settings.tsx:98-145 | the row mapped from the settings is upserted; only after an upsert without error is the "success"/"system" confirmation record written (when its insert answers) and the success toast shown; otherwise the error toast; loading ends either way |
| NotificationSettings.ReportName | components/dashboard/notification-settings.tsx:151-155 | the name handed to the weekly report: the non-empty `full_name`, else the e-mail, else "" |
| NotificationSettings.TestSentToast | components/dashboard/notification-settings.tsx:157-161 | the success toast, naming the user's e-mail ("undefined" when there is none) |
| NotificationSettings.Form.SendTestReport | components/dashboard/notification-settings.tsx:147-178 | the weekly report sent through the notification service with the user's id, e-mail and name: the e-mail and the "report" record exactly as that service makes them; then the success toast iff the e-mail went out, otherwise the failure toast; sending ends either way |
| DayTable.Rows | components/dashboard/water-level-chart-real.tsx:57-87 | one row per date in order of first appearance, each from exactly that date's readings (`RowsFor`, `RowsPerDate`, `SamplesAddUp`) |
| DayTable.LevelsOf | components/dashboard/water-level-chart-real.tsx:63 | the levels collected are the readings' levels, one per reading, in order |
| DayTable.RowsFor | components/dashboard/water-level-chart-real.tsx:70-89 | one row per date key, in the keys' order, each built from exactly that date's readings |
| DayTable.SampleSumFor | components/dashboard/water-level-chart-real.tsx:57-89 | the rows' samples add up to the sizes of their dates' groups |
| DayTable.SamplesAddUp | components/dashboard/water-level-chart-real.tsx:57-89 | every reading is counted in exactly one row: the samples add up to the number of readings |
| DayTable.RowsPerDate | components/dashboard/water-level-chart-real.tsx:57-70 | one row per date that occurs among the readings, and each date once |
| DayTable.RowDateOccurs | components/dashboard/water-level-chart-real.tsx:57-70 | a row's date is the date of one of the readings |
| DayTable.RowFigures | components/dashboard/water-level-chart-real.tsx:71-88 | a row counts the readings of its date, at least one; its minimum and maximum are levels of that date and bound every level of that date |
| DayTable.SampleSumInsert | components/dashboard/water-level-chart-real.tsx:90-97 | inserting a row while sorting adds exactly its samples |
| DayTable.SampleSumSorted | components/dashboard/water-level-chart-real.tsx:90-97 | sorting the rows keeps their samples' total |
| DayTable.GroupRows | components/dashboard/water-level-chart-real.tsx:57-89 | the grouping loop produces exactly the rows of the grouping specification, in order of first appearance |
| WaterLevelChartReal.Table | components/dashboard/water-level-chart-real.tsx:53-99 | `tableData`: the day rows, newest first, at most ten (`TableNewestFirst`, `TableMostRecent`) |
| WaterLevelChartReal.ChartData | components/dashboard/water-level-chart-real.tsx:38-50 | the line has min(20, n) points and is the first 20 readings reversed, oldest at the left |
| WaterLevelChartReal.TableData | components/dashboard/water-level-chart-real.tsx:53-99 | the pipeline group, sort newest first and take ten computes exactly the table specification |
| WaterLevelChartReal.TableMostRecent | components/dashboard/water-level-chart-real.tsx:90-98 | the table has min(10, days) rows, each a row of the full grouping, and every day left out is no later than any day shown |
| WaterLevelChartReal.ShownDatesValid | components/dashboard/water-level-chart-real.tsx:59-95 | every shown day is a valid calendar date when the readings' dates are |
| WaterLevelChartReal.TableNewestFirst | components/dashboard/water-level-chart-real.tsx:90-97 | the days are listed newest first by (year, month, day) |
| WaterLevelChartReal.EmptyIffNothingShown | components/dashboard/water-level-chart-real.tsx:39-54 | no readings gives no points and no rows, and any reading gives at least one of each |
| WaterLevelChart.Table | components/dashboard/water-level-chart.tsx:31-74 | `tableData`: the day rows keyed by dd/MM/yy, oldest first (`TableComplete`, `TableOldestFirst`) |
| WaterLevelChart.ChartData | components/dashboard/water-level-chart.tsx:23-28 | one point per reading, in input order, with its date and level |
| WaterLevelChart.TableData | components/dashboard/water-level-chart.tsx:31-74 | the group-and-sort pipeline computes exactly the table specification |
| WaterLevelChart.TableComplete | components/dashboard/water-level-chart.tsx:33-74 | no day is dropped: one row per distinct dd/MM/yy date, the rows are the grouping reordered, and the samples add up to the number of readings |
| WaterLevelChart.RowDatesValid | components/dashboard/water-level-chart.tsx:35-71 | every row's date read back as 20yy is a valid date when the readings' dates are |
| WaterLevelChart.TableOldestFirst | components/dashboard/water-level-chart.tsx:66-73 | rows are ordered oldest first, reading the two-digit year as 20yy |
| WaterLevelChart.CenturiesShareARow | components/dashboard/water-level-chart.tsx:35-71 | dates a hundred years apart share a row, and 1999 sorts as 2099 |
| WaterLevelDetailModal.DayReadings | components/dashboard/water-level-detail-modal.tsx:28-31 | `dayReadings`: the readings of the chosen date, in order (`DayReadingsExact`) |
| WaterLevelDetailModal.Stats | components/dashboard/water-level-detail-modal.tsx:34-38 | count, `Math.min`, `Math.max` and variation of the day's levels, 0 for an empty day (`StatsBounds`) |
| WaterLevelDetailModal.SensorGroups | components/dashboard/water-level-detail-modal.tsx:41-58 | `Object.entries(sensorGroups)`: one group per sensor id, in entry order (`GroupsPartition`, `GroupsAscending`, `GroupSensor`) |
| WaterLevelDetailModal.DisplayOrder | components/dashboard/water-level-detail-modal.tsx:181-182 | a group's readings sorted by time (`DisplayAscending`); readings with the same time keep their order in the group (`Sequences.SortByStable`) |
| WaterLevelDetailModal.DayReadingsExact | components/dashboard/water-level-detail-modal.tsx:28-31 | the day's readings are exactly the readings of the chosen date, in their order |
| WaterLevelDetailModal.StatsBounds | components/dashboard/water-level-detail-modal.tsx:34-38 | with no readings the count, minimum, maximum and variation are 0; otherwise the minimum and maximum are levels of the day that bound every other level, and the variation is their non-negative difference |
| WaterLevelDetailModal.EntryOrder | components/dashboard/water-level-detail-modal.tsx:120 | `Object.entries` lists each inserted key exactly once (a permutation of the keys) |
| WaterLevelDetailModal.GroupsFor | components/dashboard/water-level-detail-modal.tsx:41-58 | one group per listed id, holding exactly that id's readings (never none), under the sensor of its first reading |
| WaterLevelDetailModal.GroupsPerSensor | components/dashboard/water-level-detail-modal.tsx:41-111 | one group per distinct sensor id, so the "Sensores" card counts the distinct ids |
| WaterLevelDetailModal.GroupsPartition | components/dashboard/water-level-detail-modal.tsx:41-58 | the groups partition the day: every reading is in the group of its id, and a group holds exactly the readings with its id, in order |
| WaterLevelDetailModal.GroupStats | components/dashboard/water-level-detail-modal.tsx:121-124 | a group's card figures come from at least one reading of that sensor: its minimum and maximum are its own levels and bound all the others |
| WaterLevelDetailModal.EntryOrderSplit | components/dashboard/water-level-detail-modal.tsx:120 | array-index keys fill the front of the entry order and the other keys the back |
| WaterLevelDetailModal.EntryOrderFrontSorted | components/dashboard/water-level-detail-modal.tsx:120 | the array-index keys at the front come in strictly ascending order |
| WaterLevelDetailModal.EntryOrderAscending | components/dashboard/water-level-detail-modal.tsx:120 | in the entry order of distinct keys, array-index keys come first, strictly ascending |
| WaterLevelDetailModal.GroupsAscending | components/dashboard/water-level-detail-modal.tsx:57-120 | groups of non-negative integer ids come first, in ascending id order, not in order of first appearance |
| WaterLevelDetailModal.GroupSensor | components/dashboard/water-level-detail-modal.tsx:44-53 | a group shows the sensor joined to the day's first reading with its id, or, when that reading has none, "Sensor <id>", "Localização não informada" and "unknown" |
| WaterLevelDetailModal.DisplayAscending | components/dashboard/water-level-detail-modal.tsx:181-182 | a group's list holds its readings, each once, earliest first |
| WaterLevelDetailModal.FromMapIsFor | components/dashboard/water-level-detail-modal.tsx:120 | reading the groups off the filled object gives the groups of the specification |
| WaterLevelDetailModal.GroupsFromMapAgree | components/dashboard/water-level-detail-modal.tsx:41-120 | an object holding each id's readings under exactly the day's ids yields the specified groups in entry order |
| WaterLevelDetailModal.GroupBySensor | components/dashboard/water-level-detail-modal.tsx:41-120 | the grouping loop followed by `Object.entries` gives exactly the specified sensor groups |
| DashboardOverview.WithReadings | app/dashboard/page.tsx:90-99 | `sensorsWithReadings`: one entry per sensor with joined readings, in order of first appearance (`ListedIffJoined`, `WithReadingsDistinct`, `WithReadingsFirst`) |
| DashboardOverview.Load | app/dashboard/page.tsx:11-71 | the readings and reports are queried only after the sensors query answered without error, and the reports only when the readings query did not throw; a readings or reports error leaves that list empty without setting the error; the error is unset iff the client was created, the sensors loaded and nothing threw; a throw sets the network message and the connection flag, a client failure the generic message, a sensors error its prefixed message |
| DashboardOverview.CountStatus | app/dashboard/page.tsx:74-81 | a status count is at most the length, zero iff no element has the status, and the length iff every element has it |
| DashboardOverview.InThreeSum | app/dashboard/page.tsx:74-81 | for three different statuses, the elements with one of them number exactly the sum of the three counts |
| DashboardOverview.InThreeAll | app/dashboard/page.tsx:74-81 | the elements with one of three statuses are at most all of them, and all of them iff every element has one of the three |
| DashboardOverview.ThreeCounts | app/dashboard/page.tsx:74-81 | counts for three different statuses add up to at most the length, and to exactly the length iff every element has one of them |
| DashboardOverview.CountSensors | app/dashboard/page.tsx:74-76 | the active, inactive and maintenance cards count exact status strings: they add up to at most the number of sensors, to all of them iff no other status occurs, and all sensors are active iff the active count is the total |
| DashboardOverview.CountReports | app/dashboard/page.tsx:79-81 | the open, progress and closed counts add up to at most the number of reports, to all of them iff no other status occurs, and the open count is zero iff no report is open |
| DashboardOverview.ListedIffJoined | app/dashboard/page.tsx:90-99 | a sensor is listed iff some reading came with its joined sensor data; readings without it are skipped |
| DashboardOverview.WithReadingsDistinct | app/dashboard/page.tsx:90-99 | no sensor is listed twice |
| DashboardOverview.WithReadingsFirst | app/dashboard/page.tsx:90-99 | every entry holds the name and location of its sensor's first joined reading |
| DashboardOverview.FirstAtUnique | app/dashboard/page.tsx:91 | a sensor has one first joined reading |
| DashboardOverview.WithReadingsOrder | app/dashboard/page.tsx:90-99 | entries come in the order of their sensors' first joined readings |
| DashboardOverview.NotListedIsLast | app/dashboard/page.tsx:91-96 | the entry the last reading adds belongs to a sensor whose first joined reading is that last one |
| DashboardOverview.FirstAtExtend | app/dashboard/page.tsx:91 | a first joined reading of the earlier readings stays first with one more reading |
| DashboardOverview.FirstInPrefix | app/dashboard/page.tsx:91 | a sensor listed from the earlier readings has its first joined reading among them |
| DashboardOverview.SensorsWithReadings | app/dashboard/page.tsx:90-99 | the reduce loop builds exactly the de-duplicated list of the specification |
| DashboardOverview.RecentReports | app/dashboard/page.tsx:283 | recent activity lists the first min(5, n) reports, in their loaded order |
| SensorsPage.Matches | app/dashboard/sensors/page.tsx:51-56 | the search test on the lowered name, location and device id (`FoundByAnyField`, `CaseInsensitive`) |
| SensorsPage.Filtered | app/dashboard/sensors/page.tsx:51-56 | `filteredSensors`; characterised by `FilteredExact` and `EmptyTermKeepsAll` |
| SensorsPage.RowOf | app/dashboard/sensors/page.tsx:148-157 | a row of the list: name, device id, location cell, badge and last-reading cell |
| SensorsPage.CellText | app/dashboard/sensors/page.tsx:155-157 | the last-reading cell's text without the time (`NoReadingsOnlyWithoutReading`) |
| SensorsPage.FilteredExact | app/dashboard/sensors/page.tsx:51-56 | a sensor is shown iff its lowered name, location (when present) or device id contains the lowered term, and the shown sensors keep the list's order |
| SensorsPage.EmptyTermKeepsAll | app/dashboard/sensors/page.tsx:51-56 | the empty term keeps every sensor |
| SensorsPage.FoundByAnyField | app/dashboard/sensors/page.tsx:53-55 | a sensor is found by any part of its name, location or device id as typed; a missing location only drops that field from the test |
| SensorsPage.CaseInsensitive | app/dashboard/sensors/page.tsx:51-56 | searching for the lowered term finds the same sensors as the term itself |
| SensorsPage.BadgeLabel | app/dashboard/sensors/page.tsx:58-69 | the three known statuses read "Ativo", "Inativo" and "Manutenção", and the badge shows the raw status exactly when it is none of them |
| SensorsPage.CellOf | app/dashboard/sensors/page.tsx:155-157 | the last-reading cell is "no readings" iff there is no last reading, and otherwise shows that level |
| SensorsPage.NoReadingsOnlyWithoutReading | app/dashboard/sensors/page.tsx:155-157 | the cell reads "Sem leituras" iff there is no reading; a level of 0 is still shown with its unit |
| SensorsPage.LocationCell | app/dashboard/sensors/page.tsx:152 | the location cell is never empty, and shows "Não especificado" iff the location is missing or empty (or is that very text) |
| SensorsPage.RowsOf | app/dashboard/sensors/page.tsx:148-158 | one row per shown sensor, in order |
| SensorsPage.BodyOf | app/dashboard/sensors/page.tsx:139-146 | a message row appears iff nothing is shown, and it is the no-match message iff the search term is not empty |
| SensorsPage.Page.constructor | app/dashboard/sensors/page.tsx:17-21 | the page starts loading, with no sensors, no error and an empty search term |
| SensorsPage.Page.SetSearchTerm | app/dashboard/sensors/page.tsx:103 | typing sets the search term and nothing else |
| SensorsPage.Page.FetchSensorsAsWritten | app/dashboard/sensors/page.tsx:29-49 | as written: a successful load replaces the sensors but leaves an earlier error in place; an error sets the prefixed message and an exception the generic one; loading ends either way |
| SensorsPage.Page.FetchSensors | app/dashboard/sensors/page.tsx:29-49 | corrected: a successful load replaces the sensors and clears the error; the error paths are as written |
| SensorsPage.Page.View | app/dashboard/sensors/page.tsx:71-146 | the page shows the loading text iff loading, the error alert iff not loading and an error is set, and otherwise the count and body of the filtered list |
| SensorsPage.RetryAfterErrorAsWritten | app/dashboard/sensors/page.tsx:29-115 | as written, a failed load followed by a successful retry still shows the error alert |
| SensorsPage.RetryAfterError | app/dashboard/sensors/page.tsx:29-115 | with the corrected load, the retry brings back the list, counting every loaded sensor |
| SensorsTable.FilteredExact | components/dashboard/sensors-table.tsx:27-31 | a sensor passes iff its lowered name or location contains the lowered term, in the list's order |
| SensorsTable.FoundByNameOrLocation | components/dashboard/sensors-table.tsx:29-30 | a sensor is found by any part of its name or location as typed |
| SensorsTable.ShownIsAll | components/dashboard/sensors-table.tsx:25-31 | the search term stays "", so the table shows exactly the sensors it is given |
| SensorsTable.StatusLabel | components/dashboard/sensors-table.tsx:66 | the badge reads "Ativo" iff the status is "active" and "Desativado" iff it is anything else |
| SensorsTable.LabelsAgreeOnlyWhenActive | components/dashboard/sensors-table.tsx:66 | of the three known statuses, only "active" is labelled the same here and on the sensors page |
| SensorsTable.BodyOf | components/dashboard/sensors-table.tsx:46-72 | the single "Nenhum sensor encontrado." row appears iff there are no sensors; otherwise one row per sensor in order, with "Sem leituras" exactly for a missing reading |
| AvatarUpload.CheckFile | components/dashboard/avatar-upload.tsx:23-44 | the checks in their order: no file; a type not starting with "image/"; an image over 5·1024·1024 bytes; otherwise accepted |
| AvatarUpload.SizeLimitInclusive | components/dashboard/avatar-upload.tsx:37 | an image of exactly 5 MiB is accepted and one byte more is too large |
| AvatarUpload.AvatarUrl | components/dashboard/avatar-upload.tsx:60 | the avatar URL is the fixed prefix, the user name as seed, then the fixed suffix |
| AvatarUpload.AvatarUrlInjective | components/dashboard/avatar-upload.tsx:60 | different user names give different avatar URLs |
| AvatarUpload.Initials | components/dashboard/avatar-upload.tsx:90 | the fallback shows the first two characters of the name (fewer for a shorter name), upper-cased |
| AvatarUpload.ImageSource | components/dashboard/avatar-upload.tsx:89 | the picture is the preview when there is one, else the current avatar, else the placeholder; empty strings count as none |
| AvatarUpload.Picker.constructor | components/dashboard/avatar-upload.tsx:18-19 | the picker starts idle, with no preview, toasts or changes |
| AvatarUpload.Picker.SelectFile | components/dashboard/avatar-upload.tsx:22-46 | no file changes nothing; a non-image or an oversized image shows its error toast and starts nothing; the upload starts, setting `isUploading`, iff the file is accepted |
| AvatarUpload.Picker.FinishUpload | components/dashboard/avatar-upload.tsx:48-78 | the upload always ends with `isUploading` false; a normal end tells the parent the avatar URL once, shows the success toast and keeps the preview; a throw shows the failure toast and clears the preview |
| AvatarUpload.UploadImage | components/dashboard/avatar-upload.tsx:22-79 | a whole upload of an accepted image calls `onAvatarChange` exactly once with the user's avatar URL, ends not uploading, and shows the preview |
| CheckEnv.ListedLines | scripts/check-env.js:32 | the listed lines of `.env.local`; characterised by `ListedExact` and `ListedOnlyByFirstColumn` |
| CheckEnv.KeyOf | scripts/check-env.js:36-38 | the name printed for a line, if any (`KeyBeforeFirstEquals`, `BlankKeyPrintsEmpty`) |
| CheckEnv.Check | scripts/check-env.js:1-56 | the whole report of the script (`InstructionsDecision`, `EchoesBounded`) |
| CheckEnv.Echo | scripts/check-env.js:11-17 | an echo is the value's first n characters (all of a shorter value) followed by "..." |
| CheckEnv.ListedExact | scripts/check-env.js:32 | a line is listed iff its trimmed form is not empty and it does not start with "#", in the file's order |
| CheckEnv.ListedOnlyByFirstColumn | scripts/check-env.js:32 | a blank line is dropped, and "#" drops a line only in its first column, so an indented "#" line is listed |
| CheckEnv.KeyBeforeFirstEquals | scripts/check-env.js:36-38 | the name is the text before the first "=", trimmed; a line starting with "=" prints nothing; a line without "=" prints itself trimmed |
| CheckEnv.BlankKeyPrintsEmpty | scripts/check-env.js:36-38 | blanks before the "=" pass the test on the untrimmed key and print as an empty name |
| CheckEnv.KeysOf | scripts/check-env.js:35-40 | no more names are printed than lines listed |
| CheckEnv.KeysOfExact | scripts/check-env.js:35-40 | a name is printed iff some listed line has it as its key |
| CheckEnv.InstructionsDecision | scripts/check-env.js:24-56 | the fix steps print iff the file is missing or either variable is unset; an unreadable file still counts as present, and the names are listed only for a readable file |
| CheckEnv.EchoesBounded | scripts/check-env.js:8-17 | the echoes appear only for set variables, cut to 30 and 20 characters before the "..." |

## Left out

- Floating-point arithmetic is not modelled. This covers the averages and standard deviations of the chart tables and the detail modal, and the average at app/dashboard/page.tsx:84-87. Numbers are exact thousandths, so values with more than three decimals and exponent notation are not covered.
- Numbers.ToFixed: rounds the exact decimal value, while JavaScript rounds the nearest binary double. So `(1.005).toFixed(2)` is "1.00" in JavaScript and "1.01" here. `Numbers.RoundedUnitsNearest` and `Numbers.ToFixedValue` state the exact-decimal rounding.
- Text.Take: counts Unicode scalar values, while JavaScript's `substring` counts UTF-16 code units. A character outside the Basic Multilingual Plane counts as one here and as two in JavaScript, and a cut through a surrogate pair cannot be represented.
- AvatarUpload.Initials: takes the first two scalar values of the name. `substring(0, 2)` takes two UTF-16 code units, so for "😀Ana" JavaScript shows the emoji alone and the model shows the emoji and "A".
- CheckEnv.Echo: cuts the URL and the key at 30 and 20 scalar values, where `substring` cuts at UTF-16 code units and can split a surrogate pair.
- Supabase client construction, the auth calls and row-level security are not modelled. Each backend call is an `Outcome` parameter, and a query sees every row that matches its filters.
- `getServerSupabaseClient` failing on the dashboard page is the `clientOk` parameter of `DashboardOverview.Load`.
- Console logging is not modelled, because it has no effect on state.
- `setTimeout` delays, `Math.random` and `Date.now()` are not modelled as effects. The delays of `createUserProfile` are returned as a list and not slept. The random e-mail outcome and the random fallback coordinates are parameters.
- pt-BR locale formatting of dates and times (`format`, `toLocaleString`) is not modelled. Dates are triples, or text supplied by the caller.
- `toLowerCase`/`toUpperCase` are modelled for the Latin-1 case pairs only. Unicode case folding beyond Latin-1 is not covered.
- The literal HTML and CSS of the e-mails and pages, and `renderToString`, are not modelled. Each view is the structured list of what it shows.
- `reverseGeocode` and `getCurrentLocation` (lib/geocoding-service.ts:100 onward) are not modelled. They are a floating-point distance test and browser geolocation.
- `revalidatePath` after the profile action is not modelled, because it is a framework cache call with no result the action uses.
- The `FileReader` callback of the avatar picker is not modelled as a separate event. The preview is assumed to be read before the upload ends, and its result is the `dataUrl` parameter of `AvatarUpload.Picker.FinishUpload`.
- The update time shown next to the last reading on the sensors page and in the sensors table is not modelled. Only the level, or "Sem leituras", is.
- The edit and delete modals opened from the sensors page are not modelled, because they are separate components that only call the backend.
- NotificationService.CheckSensorMaintenance: the caller's e-mail (`user.user.email || ""`) is an `Option` given by the caller, not read from the auth service.
- WaterLevelDetailModal.DisplayOrder: `.sort` reorders each group's array in place. The model returns the sorted list as a value, so aliasing of the sorted array is not captured.
- React rendering, toasts and dialogs are not modelled as effects. Toasts are kept as the list of those shown, and a view is a function of the component's state.

## Findings

| source | as written | input that shows it | evidently intended | confidence | as-written member | corrected member |
|---|---|---|---|---|---|---|
| lib/geocoding-service.ts:72-73 | the exact lookup `knownLocations[normalizedAddress]` on a plain object also finds members inherited from `Object.prototype` and returns one of them as the location | the address "Constructor", which normalises to "constructor" | only the table's own keys are looked up, so the result is a known place or the fallback | not executed | Geocoding.ConstructorIsNotAPlace | Geocoding.GeocodeIsAPlace |
| app/dashboard/sensors/page.tsx:29-49 | a successful load never clears `fetchError`, so once an error is shown, the retry button at line 115 cannot bring the list back | a load that fails, then a retry that succeeds | a successful retry shows the sensor list | not executed | SensorsPage.RetryAfterErrorAsWritten | SensorsPage.RetryAfterError |
| components/auth/login-form.tsx:29-31 | the form applies `decodeURIComponent` to the value `searchParams.get("error")` returns, which is already decoded, so the callback's message is decoded twice | the provider message "%20", shown as a space; the message "100% failed", on which the effect throws `URIError` | the banner shows the message the callback sent, decoded once | not executed | LoginForm.SpaceEscapeShownAsSpace | LoginForm.BannerShowsMessage |
