# Designer community app: profile endpoint and page logic

A Dafny model of the logic in a Next.js community app for designers. The app has two kinds of logic.

The server side is the profile endpoint `/api/profile`:

- **GET** maps the session and the row lookup onto `UNAUTHORIZED` (401), `USER_NOT_FOUND` (404) or the stored row (200). Any throw is `INTERNAL_ERROR` (500).
- **PATCH** takes a partial update of five profile fields: `name`, `role`, `location`, `website` and `bio`.
  - It trims every present field.
  - It stores an empty `role`, `location` or `bio` as null.
  - It rejects a blank `name` with `INVALID_NAME`.
  - It clears an empty `website` and rejects a non-URL one with `INVALID_URL`.
  - It rejects a body with no recognised field with `NO_FIELDS_PROVIDED`.
  - Its catch block looks only at the kind of exception. A `SyntaxError` becomes `INVALID_JSON`, wherever it was thrown: usually by the body parse, but equally by the session lookup or the database. Any other throw, such as `trim` on a non-string field, becomes `INTERNAL_ERROR`.
  - The only store write is the final update of the caller's row, which also sets `updatedAt`.

The client side is a set of pure state updates on the dashboard pages:

- the feed's like toggle and new-post prepend;
- the chat's message append and contact search;
- the search-plus-category filters of the vacancy and resource lists;
- the registration page's password pre-checks and error-code lookup;
- the settings page's single-field record updates;
- the profile page's display fallbacks and avatar initials.

Modules:

- `JsString`:
  - the JavaScript string operations the code relies on: `trim` with the exact ECMAScript white-space set, ASCII `toLowerCase` and `includes`;
  - the `||` fallbacks;
  - the UTF-16 encoding of a code point, for `length` and `s[0]`.
- `Seqs`: `Array.prototype.filter` as an order-preserving subsequence.
- `ProfileApi`: GET and PATCH as functions from the session, the body and the store to a response and the new store.
- `ProfileApiProperties`: what PATCH accepts, rejects and writes, stated for every object body.
- `Feed`, `Chat`, `Vacancies`, `Resources`, `Register`, `Settings` and `ProfilePage`: one module per page.

Inputs stand in for things outside the model:

- The session lookup is a `Session`: it throws, finds no user, or finds a user id.
- The user table is a `Store`: a map from id to row, plus the exception the database call throws, if any.
- The request body is a `Body`: `request.json()` either throws or yields a JSON value.
- An exception is a `Thrown`: a `SyntaxError` or any other error. That is the only distinction the catch blocks make.
- `new URL(...)` succeeding is an uninterpreted predicate `isUrl`.
- The clock reading for `updatedAt` is an integer `now`.
- The chat's formatted time is a string `clock`.
- The sign-up call's outcome is a `SignUpReply`.

## Model

| member | source | states |
|---|---|---|
| ProfileApi.HttpStatus | src/app/api/profile/route.ts:7-174 | each response's status: 200 exactly for success, 400 exactly for the four validation codes, 401 for UNAUTHORIZED, 404 for USER_NOT_FOUND, 500 for INTERNAL_ERROR |
| ProfileApi.CodeTextInjective | src/app/api/profile/route.ts:7-174 | no two error codes share a wire spelling |
| ProfileApi.CaughtByGet | src/app/api/profile/route.ts:40-48 | GET's catch block answers every exception with INTERNAL_ERROR (500) |
| ProfileApi.CaughtByPatch | src/app/api/profile/route.ts:152-172 | PATCH's catch block answers INVALID_JSON exactly for a SyntaxError and INTERNAL_ERROR exactly for any other exception |
| ProfileApi.Get | src/app/api/profile/route.ts:7-50 | a session lookup that throws gives INTERNAL_ERROR; no user gives UNAUTHORIZED; an unreachable store gives INTERNAL_ERROR; a missing row gives USER_NOT_FOUND; success happens exactly when the caller's row exists, and then the stored row is returned |
| ProfileApi.NameUpdate | src/app/api/profile/route.ts:73-85 | a name that passes validation is non-empty and already trimmed |
| ProfileApi.NullableUpdate | src/app/api/profile/route.ts:87-93 | `role`, `location` and `bio` (the same code at lines 116-118) fail only by throwing (INTERNAL_ERROR), and a value they store is non-empty and trimmed, the empty string having become null |
| ProfileApi.WebsiteUpdate | src/app/api/profile/route.ts:95-114 | a website that gets stored is trimmed and parses as a URL |
| ProfileApi.CollectUpdate | src/app/api/profile/route.ts:71-118 | the five checks fail only with INVALID_NAME, INVALID_URL or a thrown TypeError (INTERNAL_ERROR); an update set they pass has a non-empty trimmed name, if any, and a trimmed URL as website, if one is stored |
| ProfileApi.Patch | src/app/api/profile/route.ts:52-174 | every failure leaves the store unchanged; a request with no user gets UNAUTHORIZED whatever its body; a session lookup that throws, and a body that cannot be parsed, get what the catch block makes of the exception (INVALID_JSON for a SyntaxError, INTERNAL_ERROR otherwise); the set of rows and the database's behaviour never change; on success the caller's row existed, it is the only row rewritten, and it keeps its id and email with `updatedAt` set to the clock reading |
| ProfileApiProperties.NameUpdateOfObject | src/app/api/profile/route.ts:73-85 | an absent name leaves the name alone; a blank string name is INVALID_NAME; any other string name is stored trimmed; a non-string name throws (INTERNAL_ERROR) |
| ProfileApiProperties.NullableUpdateOfObject | src/app/api/profile/route.ts:87-93 | an absent role, location or bio is left alone; a string one is stored trimmed, or as null when it trims to empty; a non-string one throws (INTERNAL_ERROR); `bio` at lines 116-118 is the same code |
| ProfileApiProperties.WebsiteUpdateOfObject | src/app/api/profile/route.ts:95-114 | an absent website is left alone; a blank one is cleared to null; a non-blank one is stored trimmed if it parses as a URL and is INVALID_URL otherwise; a non-string one throws (INTERNAL_ERROR) |
| ProfileApiProperties.CollectUpdateOfObject | src/app/api/profile/route.ts:71-118 | the validation of an object body passes exactly when every recognised field is acceptable, and then the update set holds exactly the normalised present fields |
| ProfileApiProperties.PatchRejectsBlankName | src/app/api/profile/route.ts:73-84 | a present name that trims to empty gives INVALID_NAME with nothing written, whatever the other fields hold, including a bad website |
| ProfileApiProperties.PatchRejectsBadWebsite | src/app/api/profile/route.ts:95-110 | a non-blank website that is not a URL gives INVALID_URL with nothing written, once name, role and location are acceptable |
| ProfileApiProperties.PatchWithoutFields | src/app/api/profile/route.ts:120-129 | a body with none of the five keys (an empty object, only unknown keys, or a non-object non-null value) gives NO_FIELDS_PROVIDED with nothing written |
| ProfileApiProperties.PatchNonStringField | src/app/api/profile/route.ts:152-172 | the first recognised field that is present but not a string, and a body of JSON null, make the handler throw: INTERNAL_ERROR, nothing written |
| ProfileApiProperties.PatchSucceedsExactly | src/app/api/profile/route.ts:71-150 | PATCH on an object body succeeds exactly when the store is reachable, the row exists, some recognised key is present and every present one is acceptable; each column then holds the normalised body value if present and its old value if absent |
| ProfileApiProperties.PatchStoreFailures | src/app/api/profile/route.ts:134-148 | an accepted update against a store that throws gets what the catch block makes of the exception (INVALID_JSON for a SyntaxError, INTERNAL_ERROR otherwise); one that matches no row gives USER_NOT_FOUND; neither writes anything |
| ProfileApiProperties.SyntaxErrorOutsideBodyParse | src/app/api/profile/route.ts:152-164 | a SyntaxError thrown by the session lookup gives INVALID_JSON in PATCH, though the body was never read, and INTERNAL_ERROR in GET; one thrown by the database on an accepted update also gives INVALID_JSON |
| ProfileApiProperties.PatchNeedsObjectBody | src/app/api/profile/route.ts:67-129 | only a JSON object body can lead to a successful PATCH |
| ProfileApiProperties.GetAfterPatch | src/app/api/profile/route.ts:135-150 | a GET after a successful PATCH returns exactly the row that PATCH returned |
| ProfileApiProperties.PatchTwice | src/app/api/profile/route.ts:131-150 | repeating an accepted PATCH gives the same row, with only `updatedAt` moved to the second clock reading |
| ProfileApiProperties.PatchPreservesWellFormed | src/app/api/profile/route.ts:73-114 | if every stored name is non-blank and every stored website is a trimmed URL, that still holds after any PATCH |
| Feed.ToggleLike | src/app/dashboard/feed/page.tsx:88-92 | the viewer's like flips and the count moves with it, so likes from other people are unchanged; no other field of the post changes |
| Feed.HandleLike | src/app/dashboard/feed/page.tsx:85-96 | the list keeps its length, order and ids; posts with another id are unchanged; posts with the id are toggled |
| Feed.ToggleLikeTwice | src/app/dashboard/feed/page.tsx:90-91 | toggling a post's like twice gives back the same post |
| Feed.LikeTwiceRestores | src/app/dashboard/feed/page.tsx:86-95 | liking the same post twice restores the original list |
| Feed.LikeKeepsIds | src/app/dashboard/feed/page.tsx:86-95 | liking keeps the set of post ids |
| Feed.SubmitPost | src/app/dashboard/feed/page.tsx:98-113 | a blank draft changes nothing; otherwise the untrimmed draft becomes an unliked post with no likes or comments, numbered one past the list length, placed in front of the unchanged old list; the author is the session name or "John Doe"; the composer is cleared |
| Feed.SubmitKeepsNumbering | src/app/dashboard/feed/page.tsx:101-110 | if the ids are exactly 1..n for n posts, after a submit they are exactly 1..m for the new length m |
| Chat.SendMessage | src/app/dashboard/chat/page.tsx:111-123 | a blank input changes nothing; otherwise the untrimmed input is appended as the viewer's own message from "You", numbered one past the length; earlier messages are unchanged and the input is cleared |
| Chat.SendKeepsNumbering | src/app/dashboard/chat/page.tsx:113-120 | if message i carries id i+1 before a send, that still holds after it |
| Chat.FilterUsers | src/app/dashboard/chat/page.tsx:125-127 | the result is an order-preserving subsequence of the users; a user is in it exactly when the lower-cased name contains the lower-cased query, and then as many times as in the list |
| Chat.EmptyQueryListsAll | src/app/dashboard/chat/page.tsx:125-127 | an empty query lists every user |
| Chat.QueryCaseIgnored | src/app/dashboard/chat/page.tsx:126 | the query's case does not matter: the lower-cased query lists the same users as the query as typed |
| Vacancies.FilterVacancies | src/app/dashboard/vacancies/page.tsx:81-87 | the result is an order-preserving subsequence; a vacancy is in it exactly when the lower-cased query occurs in its title, description or company and the type is "All" or the vacancy's own; each shown vacancy appears as many times as in the list |
| Vacancies.LocationAndSkillsNotSearched | src/app/dashboard/vacancies/page.tsx:82-84 | a vacancy whose title, description and company do not contain the query is excluded, whatever its location and skills hold |
| Vacancies.NoFilterShowsAll | src/app/dashboard/vacancies/page.tsx:81-87 | an empty query with type "All" shows every vacancy |
| Vacancies.TypeFilterNarrows | src/app/dashboard/vacancies/page.tsx:85 | for a fixed query, the result for any type is a subsequence and a subset of the result for "All" |
| Resources.FilterResources | src/app/dashboard/resources/page.tsx:80-85 | the result is an order-preserving subsequence; a resource is in it exactly when the lower-cased query occurs in its title or description and the category is "All" or the resource's own; each shown resource appears as many times as in the list |
| Resources.AuthorAndCategoryNotSearched | src/app/dashboard/resources/page.tsx:81-82 | a resource whose title and description do not contain the query is excluded, whatever its author and category hold |
| Resources.NoFilterShowsAll | src/app/dashboard/resources/page.tsx:80-85 | an empty query with category "All" shows every resource |
| Resources.CategoryFilterNarrows | src/app/dashboard/resources/page.tsx:83 | for a fixed query, the result for any category is a subsequence and a subset of the result for "All" |
| Register.ErrorMessageAsWritten | src/app/register/page.tsx:14-19 | the lookup as written returns an inherited member, not a message, exactly for the names on `Object.prototype`; every message it does return agrees with the corrected lookup |
| Register.InheritedCodeGivesNoMessage | src/app/register/page.tsx:15-16 | for the code "toString" the lookup as written returns no message |
| Register.ErrorMessage | src/app/register/page.tsx:10-19 | the "already registered" text is returned exactly for USER_ALREADY_EXISTS; the generic failure text is returned for every other code |
| Register.LookupsAgreeOffPrototype | src/app/register/page.tsx:14-19 | off the inherited names, the lookup as written and the corrected one agree |
| Register.Utf16Length | src/app/register/page.tsx:39 | a password's `length` in UTF-16 code units is at least its number of code points and at most twice that, and equals it exactly when no character is above U+FFFF |
| Register.HandleSubmit | src/app/register/page.tsx:31-65 | sign-up is called exactly when the passwords match and the length is at least 8; a mismatch is reported first; a short password gets its own message; neither pre-check touches the loading flag; an error code shows its mapped message; a throw shows the generic error; the page moves to login exactly when sign-up neither threw nor returned a code, and then shows the success toast |
| Register.PreChecksIgnoreReply | src/app/register/page.tsx:34-44 | whether sign-up is called does not depend on its reply, and a submit stopped by a pre-check gives the same result whatever the reply would have been |
| Settings.ProfileChange | src/app/dashboard/settings/page.tsx:32-34 | the named field takes the new value and every other field keeps its old one |
| Settings.ProfileChangeLastWins | src/app/dashboard/settings/page.tsx:32-34 | a second change to the same field overrides the first, and writing a field's own value back changes nothing |
| Settings.NotificationChange | src/app/dashboard/settings/page.tsx:36-38 | exactly the named flag is negated |
| Settings.NotificationChangeTwice | src/app/dashboard/settings/page.tsx:36-38 | toggling the same flag twice restores the original record |
| Settings.ApplyPrivacyChange | src/app/dashboard/settings/page.tsx:40-42 | only the named privacy field takes the new value |
| Settings.PrivacyChangeLastWins | src/app/dashboard/settings/page.tsx:40-42 | a later change to the same privacy field overrides an earlier one, changes to different fields commute, and writing a field's current value back changes nothing |
| Settings.ToggleShowEmail | src/app/dashboard/settings/page.tsx:306 | the show-email switch negates `showEmail` and leaves the other two fields alone |
| Settings.ToggleShowLocation | src/app/dashboard/settings/page.tsx:327 | the show-location switch negates `showLocation` and leaves the other two fields alone |
| Settings.PrivacyToggleTwice | src/app/dashboard/settings/page.tsx:306-327 | clicking either switch twice restores the privacy record |
| ProfilePage.ToProfileData | src/app/dashboard/profile/page.tsx:92-99 | a present non-empty value shows unchanged; a missing or empty one shows its placeholder ("User", "Designer", "Location not set", "website.com", the bio prompt); a missing email shows as empty; every other shown field is non-empty |
| ProfilePage.ShownAfterUpdate | src/app/dashboard/profile/page.tsx:92-99 | after a successful PATCH, the page shows a name sent in the body trimmed, and a website sent blank as the placeholder |
| ProfilePage.Split | src/app/dashboard/profile/page.tsx:153 | `split(" ")` gives at least one part, no part contains the separator, and joining the parts with it gives back the name |
| ProfilePage.InitialsAreWordStarts | src/app/dashboard/profile/page.tsx:153 | splitting at spaces and taking `n[0]` of every part gives exactly the first UTF-16 code unit of every word of the name, in order; runs of spaces contribute nothing |
| ProfilePage.Initials | src/app/dashboard/profile/page.tsx:153 | the initials are the first code unit of each space-separated word, as given by the word-by-word reference definition; they contain no space and are no longer than the name |
| ProfilePage.AstralInitialIsHighSurrogate | src/app/dashboard/profile/page.tsx:153 | for a name starting with U+1D49C the initial is the lone high surrogate 0xD835, as `n[0]` returns |

## Left out

- Session resolution, the database client and response construction are inputs (`Session`, `Store`, `Response`). The diagnostic `error` texts and console logging are not modelled; only the error codes are.
- `new URL(...)` is the uninterpreted predicate `isUrl`. The WHATWG URL parser is not modelled.
- `toLowerCase` is modelled on ASCII letters only. Full Unicode case mapping is not modelled.
- `trim` uses the ECMAScript white-space and line-terminator code points, with the space separators of Unicode 15 fixed as a list.
- JSON numbers carry no value, because the endpoint never reads one. A body that is a string or an array has none of the five fields, and the model reads it that way.
- Columns of the user table that GET returns untouched and PATCH never writes are not part of `UserRecord`.
- Strings are sequences of Unicode scalar values. UTF-16 code units appear only where the code counts or indexes them: in `Register.Utf16Length` and in the profile initials. A lone surrogate inside a string, which JSON can carry in a PATCH body, cannot be represented.
- `updatedAt` is the clock reading `now`. Whether successive readings increase is a property of the clock, so it is not stated.
- The mock data lists on each page are not modelled. Neither are rendering, React hooks and effects, `fetch`, `localStorage`, toasts shown as UI, redirects, or the login, landing and dashboard-layout pages.
- The profile page's fetch failure path is not modelled: on a failed fetch the page keeps showing nothing.
- Settings field names are limited to those the page's controls pass. A call with an unknown field name would add a new property in JavaScript. Privacy values are typed per field.
- Register.HandleSubmit: a rejection with no `code`, or an empty one, leads to the success path as the code is written. The model keeps that behaviour. Its error-code message goes through the corrected `Register.ErrorMessage`; see Findings.
- ProfileApi.NameUpdate: its own contract states only that a name it passes is non-empty and trimmed. The full case analysis is in `ProfileApiProperties.NameUpdateOfObject`.
- ProfileApi.NullableUpdate: its own contract states only how it can fail and what a stored value looks like. The full case analysis is in `ProfileApiProperties.NullableUpdateOfObject`.
- ProfileApi.CollectUpdate: its own contract states only which codes can fail it and the shape of what it passes. The exact update set is in `ProfileApiProperties.CollectUpdateOfObject`.
- ProfileApi.WebsiteUpdate: its own contract states only that a website it stores is a trimmed URL. The full case analysis is in `ProfileApiProperties.WebsiteUpdateOfObject`.

## Findings

| source | as written | input that shows it | evidently intended | confidence | as-written member | corrected member |
|---|---|---|---|---|---|---|
| src/app/register/page.tsx:14-19 | `code in errorCodes` is also true for names the object inherits from `Object.prototype`, and `errorCodes[code]` then returns that inherited member (a function), not a message | error code "toString" | only codes the table itself defines get their text; every other code gets "Registration failed. Please try again." | not executed; medium (the auth library would have to return such a code) | Register.ErrorMessageAsWritten | Register.ErrorMessage |
