# kettle-loan: a Dafny model of the offline outbox, the API wrapper and the routes

kettle-loan is a shared-expense app made of two Next.js generations.
`loan-calculator-app` runs on Postgres and has an offline mode. `my-loan-app`
is the older one and runs on Prisma. This project models the parts of both
that decide what gets stored, sent, queued or answered. Each part is one
module:

- `OfflineSync` (offline_sync.dfy) models the browser's durable outbox of
  pending writes and the per-room snapshot store. The class `OfflineStore`
  holds the outbox as a sequence of requests and the snapshots as a map keyed
  by room id. `SyncOutbox` drains the outbox in timestamp order against an
  oracle sequence of network outcomes. A 2xx or 4xx status (the status classes
  of section 15 of RFC 9110) deletes the request and goes on. Anything else
  stops the drain.
- `Api` (api.dfy) models `handleApi`. It decides whether a write is queued or
  sent, classifies the response, and recovers from a network failure by
  queueing the write.
- `SyncProviderModel` (sync_provider.dfy) models the `SyncProvider` component
  as a class. It holds the published `isOnline`/`isSyncing` flags and counts
  the `syncdone` events.
- `EntryManager` (entry_manager.dfy) models the equal-split balance
  computation: the viewer's net, the balance of every other member, and the
  owe/owed labels. It also proves the closed form that the viewer's net is
  the sum of the others' balances.
- `NotificationMessages` (notification_messages.dfy) models the locale
  fallback and the `{name}` template substitution.
- `Base64Url` (base64url.dfy) and `PushClient` (push_client.dfy) model the
  conversion of an application server key from base64url to a byte array.
  The padding is per section 3.2 of RFC 4648. The alphabet mapping goes from
  section 5 of RFC 4648 to section 4.
- `UserProvider` (user_provider.dfy) models `decodeToken`. It reads the
  payload segment of a JWS compact serialization (section 7.1 of RFC 7515)
  without verifying it.
- `PgRoutes` (pg_routes.dfy) models the Postgres routes: room join-or-create
  with its bounded retry loop, push subscription, and rate-limited signup.
  The tables are fields of the class `Database`.
- `PrismaRoutes` (prisma_routes.dfy) models the Prisma routes: room join and
  one-account-per-IP signup. The tables are fields of `PrismaDatabase`.
- `Js` (js.dfy) and `Http` (http.dfy) hold shared definitions: JSON values,
  JavaScript truthiness and `String(...)`, the JSON replies, and how
  node-postgres turns a JSON value into the text of a query parameter.

Everything the code takes from outside becomes a parameter:

- the network (a sequence of outcomes, or the result of one `fetch`);
- the clock (`now`) and the id generator;
- the random room codes (a function from attempt number to code);
- database failures (flags, or a set of failing attempt numbers);
- token verification (the verified user, or none);
- the `JSON.stringify` text of an object bound as a query parameter;
- `atob`, `decodeURIComponent` and `JSON.parse` (uninterpreted partial
  functions).

## Model

| member | source | states |
|---|---|---|
| OfflineSync.OfflineStore.AddToOutbox | loan-calculator-app/src/lib/offline-sync.ts:66-76 | the outbox grows by exactly one request, appended at the end; it carries the given id and timestamp, and the url, method, body and token are copied; the earlier requests and the room store are untouched; an id already in the store is refused and nothing changes |
| OfflineSync.OfflineStore.GetOutboxCount | loan-calculator-app/src/lib/offline-sync.ts:78-81 | the count is the number of stored requests, which is also the number of distinct ids |
| OfflineSync.OfflineStore.SyncOutbox | loan-calculator-app/src/lib/offline-sync.ts:83-114 | with k the number of leading settled outcomes: the requests sent are the first k+1 of the timestamp-sorted queue (all of it when every one settles); exactly the first k are deleted; the result is true iff k > 0, so an empty queue returns false and sends nothing; the room store is untouched |
| OfflineSync.SettlesIsStatusClass | loan-calculator-app/src/lib/offline-sync.ts:101 | the test Settles holds iff the fetch answered with a status in class 2xx or 4xx |
| OfflineSync.SortByTime | loan-calculator-app/src/lib/offline-sync.ts:88 | the sort's result is ordered by non-decreasing timestamp and is a permutation of the stored requests |
| OfflineSync.Insert | loan-calculator-app/src/lib/offline-sync.ts:88 | inserting into a sorted sequence keeps it sorted and adds exactly that request to its multiset |
| OfflineSync.Drained | loan-calculator-app/src/lib/offline-sync.ts:91-111 | the drain length k: the first k outcomes all settle (2xx or 4xx), and the outcome at k, when the queue and the oracle reach it, does not |
| OfflineSync.DrainedStops | loan-calculator-app/src/lib/offline-sync.ts:101-111 | an attempt at or before the stopping point deletes its request iff it comes before the stopping point; a missing outcome counts as a network error |
| OfflineSync.RemainingIsSortedSuffix | loan-calculator-app/src/lib/offline-sync.ts:89-113 | after deleting the first k sorted requests, what remains is, as a multiset, exactly the sorted suffix from k, and has \|queue\| - k elements |
| OfflineSync.WithoutIdsSplit | loan-calculator-app/src/lib/offline-sync.ts:101-111 | on a sorted queue with distinct ids, deleting the ids of the first k requests leaves exactly the suffix from k, in order |
| OfflineSync.WithoutIdsCount | loan-calculator-app/src/lib/offline-sync.ts:102 | deleting by id removes every copy of a request whose id was deleted and keeps every other request with its multiplicity |
| OfflineSync.WithoutIdsKeepsOthers | loan-calculator-app/src/lib/offline-sync.ts:102 | deleting ids that no stored request carries changes nothing |
| OfflineSync.DeleteOne | loan-calculator-app/src/lib/offline-sync.ts:102 | deleting one more request after a batch is the same as deleting the batch extended by that request |
| OfflineSync.WithoutIdsTwice | loan-calculator-app/src/lib/offline-sync.ts:102 | deleting two id sets one after the other equals deleting their union |
| OfflineSync.DistinctAfterDelete | loan-calculator-app/src/lib/offline-sync.ts:102 | deleting keeps the stored ids distinct, as the store's id key path requires |
| OfflineSync.SortKeepsDistinct | loan-calculator-app/src/lib/offline-sync.ts:88 | sorting keeps the ids distinct |
| OfflineSync.DistinctIdsCount | loan-calculator-app/src/lib/offline-sync.ts:78-81 | with distinct ids, the number of ids equals the number of requests |
| OfflineSync.OfflineStore.SaveRoomData | loan-calculator-app/src/lib/offline-sync.ts:121-129 | after the put, the record under roomId is the saved data stamped with that id and the current time; every other room and the outbox are unchanged |
| OfflineSync.Stamped | loan-calculator-app/src/lib/offline-sync.ts:123-127 | the stored record carries the given id and time and keeps every field of the given data |
| OfflineSync.OfflineStore.GetRoomData | loan-calculator-app/src/lib/offline-sync.ts:134-137 | the read returns the record stored under roomId, or none; a returned record carries that id, so a save followed by a read returns the saved record |
| OfflineSync.OfflineStore.AddLocalEntry | loan-calculator-app/src/lib/offline-sync.ts:142-156 | an absent room stays absent and nothing changes; a present room becomes WithEntry of itself; other rooms and the outbox are unchanged |
| OfflineSync.WithEntry | loan-calculator-app/src/lib/offline-sync.ts:147-153 | the new entry is first, followed by the old entries; both balance fields are replaced; lastUpdated is refreshed; id, code, members and currentUserId are unchanged |
| OfflineSync.EntriesNewestFirst | loan-calculator-app/src/lib/offline-sync.ts:148-149 | after a series of local entries, the entries read newest first, followed by the ones the room had |
| Api.Authorization | loan-calculator-app/src/lib/api.ts:41 | the Authorization header is present iff a non-empty token exists, and it is "Bearer " followed by the token |
| Api.Optimistic | loan-calculator-app/src/lib/api.ts:33 | the optimistic answer has the body's keys plus `optimistic`; the body's values override, and `optimistic` is true unless the body sets it |
| Api.ClassifyResponse | loan-calculator-app/src/lib/api.ts:46-54 | ok with status 204 or content-length "0" gives `{success: true}`; any other ok gives the parsed body, or a SyntaxError when it does not parse; a non-ok status always raises an ApiError carrying that status, whose message is "API Error" when the body does not parse |
| Api.Recover | loan-calculator-app/src/lib/api.ts:56-67 | the request is queued iff the error is a TypeError and the method is not GET; otherwise the same error is rethrown |
| Api.Plan | loan-calculator-app/src/lib/api.ts:30-66 | the decision queues the write iff the method is not GET and either the browser is offline or the fetch failed with a TypeError; an online request whose fetch throws another error is rethrown |
| Api.Queue | loan-calculator-app/src/lib/api.ts:32-62 | `addToOutbox` with the url, method, body and token, then the optimistic answer; a refused add (duplicate id) throws and changes nothing |
| Api.GetIsNeverQueued | loan-calculator-app/src/lib/api.ts:30-59 | a GET is never queued, online or offline, whatever the fetch does; a network failure on a GET is rethrown |
| Api.OfflineWritesAreQueued | loan-calculator-app/src/lib/api.ts:30-34 | offline, every write is queued, whatever the network would have done |
| Api.OnlineWritesQueuedOnlyOnNetworkFailure | loan-calculator-app/src/lib/api.ts:36-67 | online, a write is queued iff the fetch fails with a TypeError |
| Api.ErrorStatusIsRethrown | loan-calculator-app/src/lib/api.ts:53-66 | a fetched non-ok response raises an ApiError with the response's status and is not queued |
| Api.OkResponseIsAnswered | loan-calculator-app/src/lib/api.ts:46-50 | a fetched ok response answers `{success: true}` for 204 or content-length "0", otherwise the parsed body, or a SyntaxError for an unparseable body |
| Api.NullErrorBodyIsQueued | loan-calculator-app/src/lib/api.ts:53-63 | as written: a 500 whose body is JSON `null` makes `errorData.message` throw a TypeError, and a write is then queued as if the network had failed; the corrected classification raises ApiError(500) instead |
| Api.ClassificationsAgreeElsewhere | loan-calculator-app/src/lib/api.ts:46-54 | the classification as written and the corrected one agree on every response except a non-ok one whose body is `null` |
| Api.HandleApi | loan-calculator-app/src/lib/api.ts:22-68 | offline writes send nothing; otherwise the request sent carries the url, the method, the Authorization header and the body; the outcome is the one the decision Plan prescribes; when Plan queues the write, the outbox grows by exactly that request and the optimistic answer is returned |
| SyncProviderModel.SyncProvider.HandleOnline | loan-calculator-app/src/components/SyncProvider.tsx:24-40 | publishes online and syncing before the drain and not-syncing after it, even when the drain throws; `syncdone` is dispatched once iff the drain deleted something; a throwing drain changes no request |
| SyncProviderModel.SyncProvider.HandleOffline | loan-calculator-app/src/components/SyncProvider.tsx:42-45 | only isOnline changes, to false; isSyncing and the syncdone count are kept |
| SyncProviderModel.SyncProvider.Mount | loan-calculator-app/src/components/SyncProvider.tsx:18-53 | publishes the navigator's status; offline, nothing else happens; online, the initial sync runs exactly as HandleOnline: the four state values in order, the outbox left as the drain leaves it (untouched when the store fails), and `syncdone` once iff something was deleted |
| EntryManager.Share | my-loan-app/components/EntryManager.tsx:63-65 | the share is 0 with no members, and otherwise times the member count gives the room total |
| EntryManager.PaidByFilters | my-loan-app/components/EntryManager.tsx:59-61 | the viewer's paid total (PaidBy) counts nothing when no entry was paid by that id, and the whole room total when all were |
| EntryManager.TotalSpent | my-loan-app/components/EntryManager.tsx:63 | the room total is not negative when no amount is |
| EntryManager.TotalOwed | my-loan-app/components/EntryManager.tsx:67 | the viewer's net is 0 with no entries, and the viewer's paid total in a room without members (share 0) |
| EntryManager.Others | my-loan-app/components/EntryManager.tsx:69 | a member is among the others iff they are in the room and are not the viewer |
| EntryManager.ComputeBalances | my-loan-app/components/EntryManager.tsx:58-83 | the loop produces totalOwed (viewer paid minus share) and one balance per other member, keyed by username; the keys are exactly the usernames of the other members, except `__proto__`, whose assignment the plain object's inherited setter drops |
| EntryManager.BalanceKeys | my-loan-app/components/EntryManager.tsx:72-79 | the balance record has exactly one key per visited member's username, and none for a member named `__proto__` |
| EntryManager.BalanceOfMember | my-loan-app/components/EntryManager.tsx:73-78 | when usernames identify members, a visited member has a balance iff their username is not `__proto__`, and that balance is the share minus what they paid |
| EntryManager.ViewerIsNotAKey | my-loan-app/components/EntryManager.tsx:69-79 | the viewer's username is never a key of the balance record |
| EntryManager.ViewerNetIsSumOfOthers | my-loan-app/components/EntryManager.tsx:63-78 | when the viewer is a member, ids and usernames are unique, and every payer is a member, the viewer's net equals the sum of the balances the record shows for the other members, plus the debt of an other member named `__proto__`, which it drops |
| EntryManager.Shown | my-loan-app/components/EntryManager.tsx:72-78 | the members whose balance the record can hold are exactly those not named `__proto__` |
| EntryManager.Hidden | my-loan-app/components/EntryManager.tsx:72-78 | the members whose balance the record drops are exactly those named `__proto__` |
| EntryManager.SumDebtsShownHidden | my-loan-app/components/EntryManager.tsx:72-78 | the others' debts split into those the record shows and those it drops |
| EntryManager.PaymentsCoverTotal | my-loan-app/components/EntryManager.tsx:59-63 | when every payer is a member, the members' paid totals add up to the room total |
| EntryManager.SumPaidWithoutViewer | my-loan-app/components/EntryManager.tsx:59-75 | the members' paid totals are the viewer's plus the others' |
| EntryManager.SumDebtsSplit | my-loan-app/components/EntryManager.tsx:77 | the sum of the others' debts is their count times the share, minus what they paid |
| EntryManager.ZeroEntries | my-loan-app/components/EntryManager.tsx:59-78 | with no entries, totalOwed is 0 and every balance is 0 |
| EntryManager.LabelOfNet | my-loan-app/components/EntryManager.tsx:111-113 | the header says "owe you" iff totalOwed >= 0 |
| EntryManager.LabelOfBalance | my-loan-app/components/EntryManager.tsx:125 | a member line says "owes you" iff the balance is > 0 |
| EntryManager.TwoMemberLabels | my-loan-app/components/EntryManager.tsx:111-125 | in a two-member room, an other member named `__proto__` gets no balance at all; otherwise their balance equals the viewer's net; the header and member labels agree except at exactly 0, where the header says "owe you" and the member line says "You owe" |
| NotificationMessages.GetNotificationMessages | loan-calculator-app/src/lib/notification-messages.ts:22-24 | en, he and ru select their own message set; any other locale selects en |
| NotificationMessages.WordPrefix | loan-calculator-app/src/lib/notification-messages.ts:29 | the `\w+` match is the longest run of word characters at the start |
| NotificationMessages.PlaceholderAt | loan-calculator-app/src/lib/notification-messages.ts:29 | a match found is `{`, a non-empty word name and `}` |
| NotificationMessages.FormatReplacesPlaceholder | loan-calculator-app/src/lib/notification-messages.ts:29 | a leading `{name}` becomes Substitute(name, values): the own value's `String()`, else the inherited property's text, else `{name}`; the rest is formatted on its own |
| NotificationMessages.FormatWithoutValues | loan-calculator-app/src/lib/notification-messages.ts:29 | with no values the output equals the template, provided no placeholder names a property inherited from `Object.prototype` |
| NotificationMessages.Substitute | loan-calculator-app/src/lib/notification-messages.ts:29 | the callback answers the own value's `String()` when the key is present; else, for one of the twelve names inherited from `Object.prototype`, that property's `String()` text; else `{name}` |
| NotificationMessages.InheritedNameIsSubstituted | loan-calculator-app/src/lib/notification-messages.ts:29 | a placeholder naming an inherited property is replaced by its text even with no values, so the template does not survive |
| NotificationMessages.ConstructorIsSubstituted | loan-calculator-app/src/lib/notification-messages.ts:29 | `{constructor}` with no values becomes the text of the `Object` function |
| NotificationMessages.FormatKeepsPlainText | loan-calculator-app/src/lib/notification-messages.ts:28-30 | text without `{` is unchanged |
| NotificationMessages.LoneBraceIsKept | loan-calculator-app/src/lib/notification-messages.ts:29 | a `{` that does not open a `{\w+}` match is kept, with the plain text after it |
| NotificationMessages.NonWordBracesAreKept | loan-calculator-app/src/lib/notification-messages.ts:29 | `{}` and `{a-b}` are left untouched |
| NotificationMessages.ZeroIsSubstituted | loan-calculator-app/src/lib/notification-messages.ts:29 | a value 0 is substituted as "0", since `??` keeps it |
| NotificationMessages.SubstitutedValuesAreNotRescanned | loan-calculator-app/src/lib/notification-messages.ts:29 | a substituted value that itself reads `{b}` is not expanded again |
| Js.NatToString | loan-calculator-app/src/lib/notification-messages.ts:29 | `String(n)` of a natural is non-empty decimal digits without a leading zero |
| Js.ParseNatToString | loan-calculator-app/src/lib/notification-messages.ts:29 | reading the digits of `String(n)` back gives n |
| Base64Url.PaddingLength | loan-calculator-app/src/lib/push-client.ts:8 | `(4 - len % 4) % 4` is in 0..3, it completes the length to a multiple of 4, and it is 0 iff the length already is one |
| Base64Url.Repeat | loan-calculator-app/src/lib/push-client.ts:8 | `'='.repeat(n)` has n characters, all `=` |
| Base64Url.Padded | loan-calculator-app/src/lib/push-client.ts:8-9 | the padded string has a length that is a multiple of 4, starts with the input, and adds fewer than four `=` |
| Base64Url.ToStandardAlphabet | loan-calculator-app/src/lib/push-client.ts:9-11 | every `-` becomes `+` and every `_` becomes `/`, other characters are kept, and no `-` or `_` remains |
| Base64Url.UrlSafeBecomesStandard | loan-calculator-app/src/lib/push-client.ts:8-11 | a base64url string becomes a padded string over the standard alphabet of section 4 of RFC 4648 |
| Base64Url.UrlStandardRoundTrip | loan-calculator-app/src/lib/push-client.ts:9-11 | mapping to the standard alphabet and back returns any string free of `+` and `/` |
| Base64Url.PaddingSurvivesNormalisation | loan-calculator-app/src/lib/push-client.ts:8-11 | the replacement leaves the padding alone and maps the original part position by position |
| PushClient.AtobInput | loan-calculator-app/src/lib/push-client.ts:8-13 | what is handed to `atob` has a length that is a multiple of 4, at most three longer than the input, and no `-` or `_` |
| PushClient.ToUint8 | loan-calculator-app/src/lib/push-client.ts:17 | a char code below 256 is stored as that byte |
| PushClient.UrlBase64ToUint8Array | loan-calculator-app/src/lib/push-client.ts:7-20 | a failing `atob` gives no array; otherwise a fresh array as long as the decoded string whose byte i is the code of decoded character i |
| UserProvider.Split | loan-calculator-app/src/components/UserProvider.tsx:22 | `split('.')` gives at least one part and no part contains the separator |
| UserProvider.JoinSplit | loan-calculator-app/src/components/UserProvider.tsx:22 | joining the parts with the separator gives back the string |
| UserProvider.SplitAppend | loan-calculator-app/src/components/UserProvider.tsx:22 | a separator-free prefix followed by the separator is split off as the first part |
| UserProvider.SplitWithoutSeparator | loan-calculator-app/src/components/UserProvider.tsx:22-23 | a string without the separator splits into itself alone |
| UserProvider.PayloadOfCompactToken | loan-calculator-app/src/components/UserProvider.tsx:22-23 | for `header.payload` and `header.payload.signature`, the segment read is the payload |
| UserProvider.PayloadSegment | loan-calculator-app/src/components/UserProvider.tsx:22-23 | a segment found is the second `.`-separated part, non-empty and free of `.` |
| UserProvider.NoDotNoPayload | loan-calculator-app/src/components/UserProvider.tsx:22-23 | a token without a `.` has no second segment |
| UserProvider.Base16 | loan-calculator-app/src/components/UserProvider.tsx:29 | `toString(16)` ends with the lowercase digit of n mod 16 |
| UserProvider.Hex2 | loan-calculator-app/src/components/UserProvider.tsx:29 | `("00" + hex).slice(-2)` has exactly two characters |
| UserProvider.PercentByteIsHex2 | loan-calculator-app/src/components/UserProvider.tsx:29 | each character maps to `%` followed by the two hex digits of its code's low byte |
| UserProvider.PercentEscape | loan-calculator-app/src/components/UserProvider.tsx:27-30 | the escaped string is three times as long as the decoded one |
| UserProvider.PercentEscapeAt | loan-calculator-app/src/components/UserProvider.tsx:27-30 | characters 3i to 3i+2 of the escaped string are `%` and the two hex digits of decoded character i |
| UserProvider.UnescapeEscape | loan-calculator-app/src/components/UserProvider.tsx:26-31 | reading the `%hh` triples back yields each decoded character's byte, in order |
| UserProvider.DecodeToken | loan-calculator-app/src/components/UserProvider.tsx:20-43 | no payload segment gives null; a user is returned iff decoding and parsing succeed and both userId and username are truthy, and it holds exactly those two fields; every failure gives null |
| UserProvider.DecodeTokenReadsMappedSegment | loan-calculator-app/src/components/UserProvider.tsx:22-30 | a decoded user implies the second segment exists, its `-`/`_` were replaced before `atob`, and the percent-escaped bytes were decoded |
| PgRoutes.ReadRoomsBody | loan-calculator-app/src/app/api/rooms/route.ts:19-32 | an empty or unparseable body takes the create path; a body that parses to `null` fails the destructuring; a truthy roomCode takes the join path with that code |
| Http.TextParam | loan-calculator-app/src/app/api/rooms/route.ts:34 | exactly `null` and a missing value bind SQL NULL; a string binds as it is, a number or boolean as its `toString()`, an array as its Postgres array literal, an object as its JSON text |
| Http.ElementText | loan-calculator-app/src/app/api/auth/signup/route.ts:29-31 | an array binds as `{`…`}`, a scalar element as a double-quoted text, `null` as `NULL` |
| Http.Quote | loan-calculator-app/src/app/api/auth/signup/route.ts:29-31 | an element is wrapped in double quotes around its escaped text |
| Http.UnescapeEscape | loan-calculator-app/src/app/api/auth/signup/route.ts:29-31 | Postgres reads a quoted element back as exactly the text that was escaped |
| Http.OneStringArray | loan-calculator-app/src/app/api/auth/signup/route.ts:29-31 | an array holding one string binds as `{`, that string quoted and escaped, `}` |
| Http.ArrayOfOneString | loan-calculator-app/src/app/api/auth/signup/route.ts:29-31 | a username `["a"]` binds as the text `{"a"}`, not as NULL |
| PgRoutes.StoppingAttempt | loan-calculator-app/src/app/api/rooms/route.ts:47-89 | the retry loop stops at the first attempt, below 5, that fails for another reason or gets a fresh code; every attempt before it hit a duplicate code |
| PgRoutes.FiveDuplicatesExhaust | loan-calculator-app/src/app/api/rooms/route.ts:47-92 | five duplicate codes in a row exhaust the attempts |
| PgRoutes.FreshFirstCode | loan-calculator-app/src/app/api/rooms/route.ts:48-72 | a fresh first code stops the loop at the first attempt |
| PgRoutes.Database.CreateRoom | loan-calculator-app/src/app/api/rooms/route.ts:46-92 | the create loop stops at the first attempt that is not a duplicate; a free code inserts exactly one room with id old nextRoomId + j and the creator as member, and returns 201 with that id and the code; each duplicate uses up one id and changes nothing else; five duplicates give 500 createFailed, another failure the generic 500, with no room or membership added; the unique code constraint and id bounds are kept |
| PgRoutes.Database.RoomsPost | loan-calculator-app/src/app/api/rooms/route.ts:11-99 | no user gives 401 and no change; an unknown code gives 404 joinFailed; a join adds the (user, room) membership, a set so an existing one is kept, and returns roomId; create adds exactly one room with the fresh code and the creator as member and returns 201 with the code and the id the sequence drew after the j duplicate attempts before it (each duplicate uses up one id); five duplicates give 500 createFailed and any other failure the generic 500, both with no room or membership added |
| PgRoutes.UserLocale | loan-calculator-app/src/app/api/notifications/subscribe/route.ts:36-37 | the stored locale is supported; it is the requested one when that is en, he or ru, and en otherwise |
| PgRoutes.CheckSubscription | loan-calculator-app/src/app/api/notifications/subscribe/route.ts:22-37 | a missing, empty or non-string endpoint is rejected first; then keys that are not an object or lack a truthy p256dh or auth; an accepted subscription keeps its endpoint and the fallback locale |
| PgRoutes.StoredLocaleSelectsRequestedMessages | loan-calculator-app/src/app/api/notifications/subscribe/route.ts:36-37 | the stored locale selects the same message set as the locale the client asked for |
| PgRoutes.Database.Subscribe | loan-calculator-app/src/app/api/notifications/subscribe/route.ts:5-70 | 401 without a user, 400 for an unparseable body, a bad endpoint or bad keys, 404 for an unknown user, all without change; otherwise the row under that endpoint is replaced, one row per endpoint, with the user, keys, locale and time; a failing upsert gives 500 with the error text |
| PgRoutes.SignupIp | loan-calculator-app/src/app/api/auth/signup/route.ts:15 | a missing x-forwarded-for header gives 127.0.0.1, and a present one is used as is, even when empty |
| PgRoutes.OldAccountsDoNotBlock | loan-calculator-app/src/app/api/auth/signup/route.ts:18-26 | accounts from the IP created an hour ago or earlier do not block the signup |
| PgRoutes.Database.Signup | loan-calculator-app/src/app/api/auth/signup/route.ts:11-44 | a recent account from the IP gives 429 signupIpError and nothing is inserted; a taken username gives 409 signupUsernameError; success inserts exactly one user with the hashed password, the IP and the time, under the next sequence id, and returns 201; other failures give 500; every failed INSERT uses up a user id, a refused request before it does not |
| PrismaRoutes.ClientIp | my-loan-app/app/api/auth/signup/route.ts:11 | a missing or empty x-forwarded-for header gives 127.0.0.1 |
| PrismaRoutes.StringField | my-loan-app/app/api/rooms/join/route.ts:13-16 | a field is read as text iff it is present and a string |
| PrismaRoutes.RoomJson | my-loan-app/app/api/rooms/join/route.ts:36 | the joined room is answered with its id and code |
| PrismaRoutes.PrismaDatabase.Join | my-loan-app/app/api/rooms/join/route.ts:7-40 | 401 without a user; 404 for an unknown code; 400 when already a member; 500 when the insert fails, each without change; otherwise exactly one membership is added and the room is returned |
| PrismaRoutes.PrismaDatabase.Signup | my-loan-app/app/api/auth/signup/route.ts:8-36 | a used IP gives 400 before the username is looked at; an existing username gives 400; success creates exactly one user with that username, the hashed password and the IP, and returns 201; any exception gives 500; a refused signup creates nothing |
| PrismaRoutes.SignupUsesUpIp | my-loan-app/app/api/auth/signup/route.ts:13-30 | after a successful signup, the next one from the same IP is refused |

## Left out

- The IndexedDB schema set-up (`getDb`) is plumbing. The stores are the fields of `OfflineStore`.
- `getAll` returns the outbox in key (id) order. The model keeps insertion order. This only matters for the order among requests with equal timestamps, which the sort leaves in their input order.
- The `outboxchange` and `syncdone` window events are counted (`outboxChanges`, `syncDoneEvents`), not delivered. Console logging is not modelled.
- The fetch options of a replayed request are not modelled: the `Bearer ${req.token}` header and `JSON.stringify` of its body. Only the outcome of each attempt counts.
- A drain that throws is modelled as the store failing before anything is deleted. A failure of `db.delete` in the middle of a drain is not modelled.
- The Content-Type header of `handleApi` and the JSON serialisation of bodies are not modelled. The body is passed as a JSON value.
- `localStorage`, `navigator.onLine`, `crypto.randomUUID` and `Date.now` are parameters.
- Overlapping drains from repeated `online` events are not modelled, since the code has no guard against them. The model runs one call at a time.
- React rendering and the `toFixed(2)`/`Math.abs` display formatting are not modelled. Amounts are exact `real`s, so floating-point rounding is not modelled.
- JSON numbers are integers in the model. Fractional amounts reach `EntryManager` only as `real`s.
- NotificationMessages.Substitute, FormatWithoutValues, FormatReplacesPlaceholder: a number value is an integer, so `String()` of a fractional number (such as "2.5") is not modelled. The text of an inherited function is the one the Node.js engine prints; another engine may print it differently. A `values` object with its own `__proto__` key is treated as an ordinary key.
- The prototype quirk of `locale in messages` (for example `toString`) is out of scope. Locales are compared against en, he and ru.
- `atob`, `decodeURIComponent` and `JSON.parse` are uninterpreted partial functions. Base64 decoding itself is not specified.
- The random room code generation is an oracle: a function from the attempt number to a code.
- bcrypt is the value `Bcrypt(password, cost)`. JWT verification is a parameter giving the verified user or none.
- Database failures other than the unique-code violation are flags, or a set of failing attempt numbers. Whether such a failure came before or after the INSERT drew its id is a flag as well. Their messages are parameters.
- PgRoutes.Database.Signup: a `username` that is `null` or missing is taken to violate a NOT NULL column and give 500. An array or an object username is inserted as its parameter text. The table definitions are not part of this model.
- Http.TextParam: the JSON text of an object is the parameter `stringify`, because the model's objects do not keep the order of their keys. Buffers, dates and `toPostgres` objects cannot come out of a parsed JSON body and are not modelled.
- PgRoutes.Database.Signup: `created_at` and `now` are whole seconds, and the window is the last 3600 of them.
- PrismaRoutes.PrismaDatabase.Join: the room is answered with its id and code only. A room's other columns are not part of this model.
- PrismaRoutes.PrismaDatabase.Join: an unparseable body and a missing or non-string roomCode throw outside any try block. The framework's reply is modelled as a 500 with a `null` body.
- Push delivery (`notifications.ts`, the service worker) is not modelled.

## Findings

| source | as written | input that shows it | evidently intended | confidence | as-written member | corrected member |
|---|---|---|---|---|---|---|
| loan-calculator-app/src/lib/api.ts:53-63 | a non-ok body that parses to JSON `null` makes `errorData.message` throw a TypeError; the catch takes it for a network failure, so a write is queued and answered optimistically | a POST answered with status 500 and body `null` | an ApiError carrying status 500, rethrown and not queued | not executed | Api.NullErrorBodyIsQueued (with Api.ClassifyResponseAsWritten) | Api.ClassifyResponse (with Api.ClassificationsAgreeElsewhere; Api.HandleApi uses it) |
