# yii2-uuid: anonymous visitor identifier and event log

This project models the two components of the `mg-code/yii2-uuid` Yii 2
extension. Each component gives a visitor a persistent anonymous identifier
and records the visitor's events. The identifier is cached in the private
field `_uuid`, recovered from the request cookie `cookieName` (default
`__muid`), or drawn from `NumberHelper::getGuid()` and sent back in a
response cookie. Events are rows of the `uuid_event` table. `trackEvent`
(`track` in the older `TrackComponent`) appends one row. `countEvents`
counts the visitor's rows under up to three optional filters: `false` means
"do not filter on this column", and any other value, `null` included, means
"column equals / IS NULL".

Layout:

- `wrappers.dfy`: `Option` (PHP `null`) and `Outcome` (an operation that either completes or throws).
- `utf8.dfy`: `strlen` as the UTF-8 byte length of a string.
- `cookies.dfy`: the `array_merge` of `cookieParams` with the name and value, and the cookie configured from it.
- `events.dfy`: the event row, the filter semantics of `countEvents`, and the count as the length of a selected subsequence.
- `host.dfy`: the collaborators behind `Yii::$app` as in-memory state. A class `Application` holds the request cookies (read only), the response cookie collection (a map keyed by cookie name) and the event table (a sequence). A class `GuidGenerator` stands for `NumberHelper::getGuid()`.
- `lifecycle.dfy`: the specification. Each public operation is a relation between the state before and after a call: `GetUuidStep`, `SetUuidState`, `TrackStep` and `CountStep`. The state is `_uuid`, the response cookies and the table. The relations are nondeterministic only in the value the generator draws. This module also holds the lemmas about them.
- `uuid_component.dfy`, `track_component.dfy`: the two PHP classes as Dafny classes with the same fields. Each method's `ensures` is the matching relation from `lifecycle.dfy`. Because both classes satisfy the same relations, `TrackComponent`'s `getUuid`/`setUuid`/`track` behave the same as `UuidComponent`'s `getUuid`/`setUuid`/`trackEvent`. `TrackComponents.TrackAgreesWithTrackEvent` runs both side by side to show it.

Parameters standing in for the environment: the request cookies are given
when the `Application` is created. The generator's output stream is given
when the `GuidGenerator` is created, and no contract says anything about
the values it returns.

## Model

| member | source | states |
|---|---|---|
| `Utf8.ByteLength` | components/UuidComponent.php:81 | `strlen(action)` is at least the number of characters and at most four times it, and equals it exactly when the action is ASCII |
| `Utf8.Width` | components/UuidComponent.php:81 | a character takes 1 to 4 bytes, and exactly 1 when it is ASCII |
| `Cookies.MergeNameValue` | components/UuidComponent.php:63-66 | `array_merge` puts `name => cookieName` and `value => uuid` over whatever `cookieParams` holds under those keys and keeps every other entry of `cookieParams` |
| `Cookies.NameAndValueWin` | components/UuidComponent.php:63-67 | the cookie built from the merged array has exactly the configured name and the identifier as value; its other properties are the other `cookieParams` entries, unchanged |
| `Cookies.Configure` | components/UuidComponent.php:67 | the cookie keeps everything in the array: its name and value come from the `name` and `value` entries, its other properties are the rest, and the array can be rebuilt from it |
| `Events.Admits` | components/UuidComponent.php:110-120 | a filter argument `false` admits every cell, `null` admits exactly NULL (`IS NULL`), and any other value admits exactly the cells equal to it |
| `Events.Matches` | components/UuidComponent.php:105-120 | a row matches exactly when it carries the current uuid and equals every filter that is not `false`; `action` filtered to `null` matches nothing (the column is never NULL); with all filters `false` every row of the uuid matches |
| `Events.Select` | components/UuidComponent.php:105-120 | the selected rows are the table rows that satisfy every condition (uuid, and each filter that is not `false`), each kept as many times as it occurs in the table, and no other rows |
| `Events.CountMatching` | components/UuidComponent.php:106-122 | `COUNT(*)` of the selection is at most the table size, zero exactly when no row matches, and the table size exactly when every row matches |
| `Events.CountAppend` | components/UuidComponent.php:103-122 | appending a row raises the count by one if the row matches the conditions, otherwise leaves it unchanged |
| `Events.CountNarrows` | components/UuidComponent.php:110-120 | each further `andWhere` condition can only lower the count |
| `Events.CountAtMostUnfiltered` | components/UuidComponent.php:103-122 | any filtered count is between 0 and the count with all filters `false`, which is at most the table size |
| `Events.CountIgnoresOtherIds` | components/UuidComponent.php:108 | a row of another identifier string never changes the visitor's count (identifiers compared as strings; see "## Left out") |
| `Host.Application.AddResponseCookie` | components/UuidComponent.php:68 | the response collection holds the new cookie under its name; all other cookies are kept |
| `Host.Application.InsertEvent` | components/UuidComponent.php:85-91 | the table is the old table with the row appended |
| `Host.GuidGenerator.GetGuid` | components/UuidComponent.php:52 | returns some string and records that one more identifier was drawn; nothing is promised about the value |
| `Lifecycle.ResolutionOf` | components/UuidComponent.php:43-54 | `getUuid` takes the cached branch exactly when `_uuid` is set, the request branch exactly when nothing is cached and the cookie was sent and is neither `""` nor `"0"`, and draws a fresh id otherwise |
| `Lifecycle.GetUuidStep` | components/UuidComponent.php:41-55 | every outcome of `getUuid` leaves the returned identifier cached, the table unchanged, every response cookie other than `cookieName` as it was, and adds no cookie under another name |
| `Lifecycle.CachedIsReturned` | components/UuidComponent.php:43-45 | with `_uuid` set, `getUuid` returns it and changes neither the cache nor the cookies nor the table |
| `Lifecycle.GetUuidIdempotent` | components/UuidComponent.php:41-55 | two consecutive `getUuid` calls return the same identifier and the second changes nothing |
| `Lifecycle.Truthy` | components/UuidComponent.php:47 | a cookie value is truthy only when present and non-empty; every value of two or more characters is truthy, and a one-character value is truthy exactly when it is not `"0"` |
| `Lifecycle.RequestValue` | components/UuidComponent.php:47 | `getValue(cookieName)` is present exactly when the request sent that cookie, and is then the value sent |
| `Lifecycle.RequestCookieIsAdopted` | components/UuidComponent.php:47-49 | with nothing cached and a truthy request cookie, `getUuid` returns that cookie's value, caches it, and writes no response cookie |
| `Lifecycle.MissingCookieIsGenerated` | components/UuidComponent.php:47-54 | with nothing cached and the request cookie missing, `""` or `"0"`, the generated branch is taken: the identifier is cached and sent in a response cookie under `cookieName` with that value |
| `Lifecycle.SetUuidState` | components/UuidComponent.php:61-70 | after `setUuid(x)`, `_uuid` is `x` and the response holds the cookie (`cookieName`, `x`, other `cookieParams`); `cookieName` is the only cookie name added; other response cookies and the table are unchanged |
| `Lifecycle.SetThenGet` | components/UuidComponent.php:43-45 | after `setUuid(x)`, `getUuid` returns `x` by the cached branch, without the request cookie or the generator |
| `Lifecycle.GetUuidDeterministic` | components/UuidComponent.php:41-55 | `getUuid` is determined by the state except for the drawn value: two runs from one state agree whenever they draw the same value |
| `Lifecycle.TrackStep` | components/UuidComponent.php:79-92 | every outcome of `trackEvent` keeps the old rows as a prefix and adds exactly one row on success and none on failure |
| `Lifecycle.TrackValidatesFirst` | components/UuidComponent.php:81-82 | `trackEvent` fails exactly when `strlen(action) > actionNameLength`, with "Action name is too long."; it then leaves the table, `_uuid` and the cookies as they were |
| `Lifecycle.TooManyCharactersRefused` | components/UuidComponent.php:81-82 | an action with more characters than the limit is always refused, whatever its encoding |
| `Lifecycle.TrackAppendsOneRow` | components/UuidComponent.php:85-91 | a successful `trackEvent` appends exactly one row `{uuid: getUuid(), action, target, value}` after the unchanged old rows, and keeps an already cached identifier |
| `Lifecycle.TrackedRowMatches` | components/UuidComponent.php:85-91 | a row `trackEvent(a, t, v)` inserts is counted by `countEvents(a, t, v)` and by the unfiltered count |
| `Lifecycle.CountStep` | components/UuidComponent.php:103-123 | every outcome of `countEvents` leaves the table unchanged and returns at most the number of rows |
| `Lifecycle.CountIsReadOnly` | components/UuidComponent.php:103-122 | `countEvents` leaves the table unchanged and returns at most the visitor's unfiltered count |
| `Lifecycle.TrackTwiceCountsTwo` | components/UuidComponent.php:79-122 | count, two successful identical `trackEvent(a, t, v)`, count again: the second count is the first plus 2 |
| `Lifecycle.TrackDeterministic` | components/TrackComponent.php:78-91 | tracking is determined by the state and the drawn value: two runs from one state that cache the same identifier give the same outcome and state |
| `Lifecycle.ClickExample` | components/UuidComponent.php:79-122 | on an empty table with the default configuration, two `trackEvent("click", 5, "buy")` succeed; then `countEvents("click", 5, "buy")` and `countEvents("click")` are 2 and `countEvents("other")` is 0 |
| `UuidComponents.UuidComponent.constructor` | components/UuidComponent.php:23-35 | defaults `cookieName = '__muid'`, `cookieParams = []`, `actionNameLength = 25`, `_uuid = null` |
| `UuidComponents.UuidComponent.GetUuid` | components/UuidComponent.php:41-55 | the call is a `GetUuidStep`, and the generator is asked once in the generated branch and never otherwise |
| `UuidComponents.UuidComponent.SetUuid` | components/UuidComponent.php:61-70 | the new state is `SetUuidState` of the old one |
| `UuidComponents.UuidComponent.TrackEvent` | components/UuidComponent.php:79-92 | the call is a `TrackStep`; a rejected call draws nothing |
| `UuidComponents.UuidComponent.CountEvents` | components/UuidComponent.php:103-123 | the call is a `CountStep`: the query starts from the uuid condition and each filter that is not `false` adds its condition |
| `UuidComponents.TrackTwiceThenCount` | components/UuidComponent.php:79-122 | from the class contracts alone: with a valid action, count, two `trackEvent`, count gives a second count two above the first |
| `TrackComponents.TrackComponent.constructor` | components/TrackComponent.php:22-34 | the same defaults as `UuidComponent` |
| `TrackComponents.TrackComponent.GetUuid` | components/TrackComponent.php:40-54 | the same `GetUuidStep` relation and generator accounting as `UuidComponent.GetUuid` |
| `TrackComponents.TrackComponent.SetUuid` | components/TrackComponent.php:60-69 | the same `SetUuidState` as `UuidComponent.SetUuid` |
| `TrackComponents.TrackComponent.Track` | components/TrackComponent.php:78-91 | the same `TrackStep` relation as `UuidComponent.TrackEvent` |
| `TrackComponents.TrackAgreesWithTrackEvent` | components/TrackComponent.php:78-91 | `track` and `trackEvent`, run from equal states, reach the same state when no identifier is drawn. When both settle on the same identifier they also return the same outcome |

## Left out

- Cookie transport: the request and response cookie collections are maps. Yii's `CookieCollection` class is not modelled, only its `add`, which replaces a cookie of the same name (`Host.Application.AddResponseCookie`), and its `getValue` (`Lifecycle.RequestValue`). Cookie validation and signing are omitted.
- Cookie expiry: neither component sets a default expiry; the cookie carries only what `cookieParams` supplies.
- `new Cookie($params)` with keys that are not cookie properties: Yii would throw; this is not modelled.
- The database: `createCommand()->insert` and the `Query` builder are replaced by a sequence of rows. SQL errors, connection failures and the table's `utf8_general_ci` collation are not modelled. Under that collation, comparisons on `action` and on `value` ignore case, most accents and trailing spaces, while the model compares exactly. The `created` timestamp (`NOW()`) and the auto-increment `id` are dropped; a row's position stands in for its `id`.
- Column types: `uuid` and `target` are `BIGINT` in the table, but the model keeps the identifier as the string PHP passes. Array-valued filters (SQL `IN`) and non-string action names are not modelled.
- Events.CountIgnoresOtherIds: compares identifiers as strings. MySQL compares the `BIGINT UNSIGNED` column `uuid` with the bound string as a number, so the truthy cookies `"0123"` and `"123"` are one visitor for `countEvents` in the database and two in the model. A row tracked under `"123"` does raise the count for `"0123"` there.
- Lifecycle.TrackTwiceCountsTwo: assumes the stored action equals the tracked one. `action` is `CHAR(25)`, so with `actionNameLength` configured above 25, MySQL outside strict mode cuts a longer name to 25 characters. `countEvents(a)` then no longer counts that row, and the +2 fails in the database. With the default limit of 25 bytes the name always fits.
- Host.GuidGenerator.GetGuid: says nothing about the value drawn. Uniqueness and entropy of `NumberHelper::getGuid()` are not claimed.
- Default arguments (`target = null`, `value = null`, filters `= false`) are written out at each call, since Dafny methods here take every argument explicitly.
- `strlen`: modelled as the UTF-8 byte length, assuming the application's strings are UTF-8.
- The parameter store (set/get/exists/remove param) and `groupEventTargets`: neither component implements them. Only the `uuid_param` table's migration exists, so they are not modelled.
- Migrations (MySQL DDL and the driver-name check): schema tooling only; they only informed the row fields.
- Concurrency between requests: the model is sequential.
