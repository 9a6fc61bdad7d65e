# Social publishing back end and news client: a Dafny model

This project models, and proves properties of, the deterministic logic the
repository spreads across three parts.

- **Server side.**
  - The AWS Lambda handlers for posts and posting schedules, with their DynamoDB tables and the S3 media bucket.
  - The Facebook Graph API token chain, kept in a `ConfigParser` file.
  - The version 7 UUID generator.
- **Mobile client.**
  - Session management over AsyncStorage against Amazon Cognito.
  - The user-attribute service.
  - The JWT and display-name helpers.
- **News client.**
  - The Redux bookmark and like reducers.
  - The news filter hook and the scroll-direction tracker.
  - The category tables and the schedule screen helpers.
  - The relative-time label and the latest-news route parameters.
  - The theme's colour arithmetic.

The external services become inputs, so that every operation is a
deterministic function or method:

- **Stores.** DynamoDB tables, the S3 bucket and AsyncStorage are fields of classes, holding maps and sets.
- **Remote answers.** The answers of Cognito, the Graph API and S3 are parameters: a result or an error.
- **Clock.** The clock is a parameter (`now`).
- **Random bytes.** The random bytes are a parameter.
- **JavaScript library routines.** `JSON.parse`, base64 decoding and `new Date(text)` are parameters.

One Dafny module corresponds to each source file. The exceptions are the
shared request plumbing of the two Lambda handlers (`LambdaEvent`,
`ItemTable`) and small runtime modules. Those runtime modules are:

- `Wrappers`: Option and Result.
- `Strings`: upper- and lower-casing of ASCII letters, JavaScript `split`, Python `str.split()` over Python's whitespace characters, and `replace`.
- `Numerals`: decimal and hexadecimal digits, JavaScript `parseInt`, Python `float` of digit strings.
- `Sequences`: filter, subsequence, flatten.
- `PyJson`: JSON values with Python truthiness, `dict.get`, `in` and subscripting.
- `PyConfig`: Python `configparser`.

Where the source mutates state, the model is a class whose methods are
specified against functions of the old state. Those functions carry the
lemmas. Examples: `Posts.PostsApi`, `Schedules.SchedulesApi`,
`Facebook.Facebook`, `TokenStorage.AsyncStorage`, `Auth.AuthService`,
`NewsFilters.FilterState` and `ScrollDirection.ScrollTracker`. Pure code
becomes functions over datatypes, such as the reducers, the category tables,
the time and colour helpers, and the route parameters.

JavaScript and Python semantics are written out wherever the source relies on them:

- **JavaScript numbers.**
  - `%` truncates toward zero.
  - `parseInt` yields `NaN`, modelled as `None`.
  - `>>` and `<<` work on 32-bit integers.
  - `& 255` keeps the low byte.
- **JavaScript strings.**
  - `replace("#", "")` removes only the first `#`.
  - `split(":")[1]` of a string without `:` is `undefined`.
- **Python.**
  - Truthiness follows Python.
  - `str.split()` splits on runs of whitespace.
  - `configparser` option names are case-insensitive: they are stored and looked up lower-cased, and a dict whose names clash once lower-cased raises `DuplicateOptionError`.
  - `KeyError` carries the missing key.
  - A byte of `bytes` is an integer in 0..255. The version mask `(x & 0x0F) | 0x70` and the variant mask `(x & 0x3F) | 0x80` are written as the equivalent remainder arithmetic.

## Model

| member | source | states |
|---|---|---|
| LambdaEvent.UserIdIsFirstPresentClaim | api/lambda/posts/handler.py:315-333 | the caller id is the first of `sub`, `cognito:username`, `username` present in the authorizer claims, in that order, or none |
| LambdaEvent.NoContextNoUser | api/lambda/posts/handler.py:322-330 | an event without `requestContext` yields no caller id |
| LambdaEvent.ParseBody | api/lambda/posts/handler.py:336-347 | a non-string body is returned as it is; a string that `json.loads` rejects gives `{}` |
| LambdaEvent.AbsentBodyIsEmptyObject | api/lambda/posts/handler.py:340-346 | a missing body is parsed from the text `{}` |
| LambdaEvent.Route | api/lambda/posts/handler.py:31-79 | configuration is checked first (500), then the caller id (401, before any table access); every operation is dispatched with a truthy caller id, every item operation with a truthy path id, and create and update with the parsed body |
| LambdaEvent.RouteList | api/lambda/posts/handler.py:54-56 | an authorised GET of the collection lists the caller's items |
| LambdaEvent.RouteMissingId | api/lambda/posts/handler.py:61-64 | an item path without an id answers 400 before any operation |
| ItemTable.Owned | api/lambda/posts/handler.py:90-92 | the `UserIdIndex` query returns exactly the ids whose item has the caller's `userId` |
| ItemTable.OwnedItem | api/lambda/posts/handler.py:126-134 | 404 exactly when the item is absent or empty, else 403 exactly when its `userId` differs from the caller, else the stored item |
| ItemTable.OwnedItemIsOwned | api/lambda/posts/handler.py:126-134 | an item that passes the guards is among the caller's items |
| ItemTable.QueryByUser | api/lambda/posts/handler.py:90-111 | the formatting loop returns one view per owned item, each owned item exactly once; every owned item's view is listed and every listed view is an owned item's |
| Posts.PostView | api/lambda/posts/handler.py:137-145 | a read returns exactly the seven attributes, each one the item's value or None |
| Posts.NewPost | api/lambda/posts/handler.py:160-195 | a body that is not a dict gives 500; falsy content gives 400; otherwise the post has id, caller, content and equal created and updated times, is SCHEDULED exactly when `scheduledFor` is truthy and DRAFT otherwise, and holds `mediaUrl` or `scheduledFor` exactly when supplied truthy |
| Posts.UpdateOfObject | api/lambda/posts/handler.py:225-264 | an update of a dict body sets exactly the supplied editable attributes to the supplied values and `updatedAt` to now, with no value validation; every other attribute (id, owner, creation time) is kept |
| Posts.UpdateOfScalarFails | api/lambda/posts/handler.py:225-275 | an update whose body is None, a boolean or a number fails with 500, because `in` raises |
| Posts.MediaKey | api/lambda/posts/handler.py:296-299 | media is deleted only when `mediaUrl` is a string starting with `s3://<bucket>/`; no truthy `mediaUrl` means no deletion |
| Posts.MediaKeyOfBucketUrl | api/lambda/posts/handler.py:297-301 | a URL made of the bucket prefix and a key deletes that key |
| Posts.PostsApi.GetPosts | api/lambda/posts/handler.py:82-111 | 200 with exactly the caller's posts, each once, formatted |
| Posts.PostsApi.GetPost | api/lambda/posts/handler.py:118-147 | 200 exactly when the post exists and is the caller's, and then the formatted post |
| Posts.PostsApi.CreatePost | api/lambda/posts/handler.py:154-195 | on error the table is unchanged; on success exactly the new post is stored under the new id and returned with 201 |
| Posts.PostsApi.UpdatePost | api/lambda/posts/handler.py:202-271 | the guards answer 404 and then 403 with no change; otherwise the item becomes itself overlaid with the changes, and that item is returned |
| Posts.PostsApi.DeletePost | api/lambda/posts/handler.py:278-308 | after the guards the post is removed even when S3 refuses the media deletion; the media object goes only when it is in the bucket and S3 accepts |
| Posts.PostsApi.Handle | api/lambda/posts/handler.py:31-79 | a direct answer, a read or a listing leaves the table unchanged; a listing answers 200 with every owned post's view and nothing else; a create, an update or a delete has the response and the new table and bucket its operation gives (`NewPost`, the guards with `PostChanges`, the guards with `MediaKey`); only a delete touches the bucket |
| Posts.CreateThenGet | api/lambda/posts/handler.py:193-195 | a post read back by its creator right after creation is the created post |
| Posts.DeleteThenGet | api/lambda/posts/handler.py:306-308 | after deletion every reader gets 404 |
| Posts.OthersPostsGuarded | api/lambda/posts/handler.py:288-293 | an operation on another user's post answers 403 |
| Schedules.CronIgnoresSurroundingSpace | api/lambda/schedules/handler.py:167-169 | the five-field check ignores leading and trailing whitespace |
| Schedules.CronsValidPut | api/lambda/schedules/handler.py:186-187 | storing a record whose expression passes keeps every stored expression valid |
| Schedules.CronsValidUpdate | api/lambda/schedules/handler.py:225-258 | an update whose expression passes keeps every stored expression valid |
| Schedules.ScheduleView | api/lambda/schedules/handler.py:134-141 | a read returns exactly the six attributes; `enabled` defaults to True |
| Schedules.NewSchedule | api/lambda/schedules/handler.py:156-189 | a body that is not a dict gives 500; a falsy name gives 400 "Name is required"; then a falsy expression gives 400 "Cron expression is required"; then a truthy non-string expression gives 500 (`split` raises); then a field count other than five gives 400 "Invalid cron expression format"; creation succeeds exactly when the name is truthy and the expression is a string of five whitespace-separated fields; the record has the caller, equal created and updated times and `enabled` defaulting to True |
| Schedules.ScheduleRecord | api/lambda/schedules/handler.py:176-184 | the stored record holds exactly the seven attributes, and both timestamps are the creation time |
| Schedules.ScheduleUpdates | api/lambda/schedules/handler.py:219-246 | the changes hold `updatedAt` and exactly the supplied name, expression and enabled flag |
| Schedules.ScheduleChanges | api/lambda/schedules/handler.py:219-246 | changes only ever set name, expression, enabled and `updatedAt`, always set `updatedAt`, and carry only a valid expression |
| Schedules.ChangesOfObject | api/lambda/schedules/handler.py:219-246 | a malformed expression (400, or 500 for a non-string) stops the update before any write, so the name and enabled flag from the same body are not applied |
| Schedules.UpdateOfObject | api/lambda/schedules/handler.py:219-258 | a dict body fails exactly on a malformed expression; otherwise it sets exactly the supplied fields and keeps every other attribute |
| Schedules.SchedulesApi.GetSchedules | api/lambda/schedules/handler.py:80-108 | 200 with exactly the caller's schedules, each once, formatted |
| Schedules.SchedulesApi.GetSchedule | api/lambda/schedules/handler.py:115-143 | 200 exactly when the schedule exists and is the caller's |
| Schedules.SchedulesApi.CreateSchedule | api/lambda/schedules/handler.py:150-189 | the new record is stored exactly on success, and every stored expression stays valid |
| Schedules.SchedulesApi.UpdateSchedule | api/lambda/schedules/handler.py:196-265 | 404 and then 403 with no change; a rejected body changes nothing; otherwise the item is overlaid with the changes |
| Schedules.SchedulesApi.DeleteSchedule | api/lambda/schedules/handler.py:272-292 | only the record with that id is removed, and only after the ownership check |
| Schedules.SchedulesApi.Handle | api/lambda/schedules/handler.py:29-77 | direct answers, reads and listings leave the table unchanged; a listing answers 200 with every owned schedule's view and nothing else; a create, an update or a delete has the response and the new table its operation gives (`NewSchedule`, the guards with `ScheduleChanges`, the guards); every stored expression stays valid |
| PyConfig.Lookup | Facebook.py:23 | a missing section raises KeyError with the section name; otherwise the answer is the section's own value under the lower-cased name, else DEFAULT's, else KeyError with the name as written |
| PyConfig.LookupAfterSet | Facebook.py:18-23 | a token written as `token` reads back as `Token`, because option names are case-insensitive |
| PyConfig.SetIsLocal | Facebook.py:19 | setting an option of one section leaves every other named section's lookups unchanged |
| PyConfig.Stored | Facebook.py:28 | the dict's options are stored under their lower-cased names, each with its own value |
| PyConfig.ReplaceSection | Facebook.py:28 | replacing a section raises DuplicateOptionError exactly when two of the dict's names lower-case alike; otherwise the section exists afterwards |
| PyConfig.ReplaceWithOne | Facebook.py:18 | a one-option dict never clashes, and the section becomes exactly that option under its lower-cased name |
| PyConfig.LookupAfterReplace | Facebook.py:28 | after a section is replaced, any spelling of a name that lower-cases like one of the dict's names answers that name's value; other names answer from DEFAULT, else KeyError |
| PyConfig.ConfigParser.SetSection | Facebook.py:28 | on a clash the error is raised and the parser is unchanged; otherwise the parser holds the replaced contents |
| PyConfig.MergeOverrides | Facebook.py:12 | reading a file makes its options the section's answers |
| Facebook.BootstrapOnFirstRun | Facebook.py:16-23 | on a first run the fetched token is stored and written, read back, and `first_run` becomes "No" |
| Facebook.ShortLivedOnce | bin/Facebook.py:16-22 | a second call after a successful one neither fetches nor writes, and yields the same token |
| Facebook.ExchangeStampsTime | Facebook.py:25-32 | a reply with an access token is stored as the long-token section stamped with `time_obtained = now`, written, and its token is returned |
| Facebook.Exchanged | Facebook.py:28-29 | storing the reply fails with DuplicateOptionError exactly when two of its names lower-case alike |
| Facebook.LookupExchanged | Facebook.py:28-32 | the stamped section answers the stamp for `time_obtained`, the reply's value under any spelling of another lower-case name, and DEFAULT's value or KeyError when the reply lacks the name |
| Facebook.ExchangeClashRaises | Facebook.py:26-35 | a reply with clashing names raises DuplicateOptionError, which `except KeyError` does not catch, and nothing is written |
| Facebook.ExchangeWithoutToken | Facebook.py:33-35 | a reply without `access_token` falls back to the short-token bootstrap and returns None |
| Facebook.ExpiryIsStrict | Facebook.py:44-47 | the token counts as expired exactly when `time_obtained + expires_in < now`; renewal then raises AttributeError for the undefined `getNewLongToken` |
| Facebook.CachedTokenKept | Facebook.py:37-46 | a cached token that has not expired is kept, and nothing is fetched or written |
| Facebook.RenewalRaises | bin/Facebook.py:42-46 | renewing an expired token raises and keeps the cached attribute |
| Facebook.PageDetailsIgnoreExpiry | bin/Facebook.py:53-56 | bin/Facebook.py's page request uses the stored token even when it has expired |
| Facebook.Facebook.OpenShared | Facebook.py:7-14 | Facebook.py reads "config.ini" into the one parser every instance shares; app id and secret come from DEFAULT, else KeyError |
| Facebook.Facebook.OpenFresh | bin/Facebook.py:9-14 | bin/Facebook.py reads "Facebook.ini" into a fresh parser for each instance |
| Facebook.Facebook.GetShortLivedUserAccessToken | Facebook.py:16-23 | the new state and the written file are those `ShortLived` gives |
| Facebook.Facebook.GetNewLongUserToken | Facebook.py:25-35 | the new state, the result and the written file are those `NewLongToken` gives |
| Facebook.Facebook.GetLongLivedUserAccessToken | Facebook.py:37-47 | the new state, the raised error and the written file are those `LongLived` gives |
| Facebook.Facebook.GetUserDetails | Facebook.py:49-52 | the provider's reply for the long token becomes the UserDetails section and is written; a reply with clashing names raises DuplicateOptionError, and nothing is written |
| Uuid.Uuid7 | aws/src/shared/uuid.py:14-41 | raises exactly when `unix_timestamp * 1000` is negative or not below 2^48; otherwise gives the hyphenated hex of the sixteen bytes built in place |
| Uuid.UuidShape | aws/src/shared/uuid.py:36-39 | 36 characters, '-' exactly at 8, 13, 18 and 23, lower-case hex elsewhere |
| Uuid.UuidVersion | aws/src/shared/uuid.py:31 | character 14 is '7' |
| Uuid.UuidVariant | aws/src/shared/uuid.py:34 | character 19 is one of 8, 9, a, b |
| Uuid.UuidTimestamp | aws/src/shared/uuid.py:19-22 | the first twelve hex digits read back as the millisecond time stamp |
| Uuid.UuidRandomBits | aws/src/shared/uuid.py:25-34 | bytes 0-5 are the time stamp; byte 6 has high nibble 7 and the low nibble of random byte 0; byte 7 is random byte 1; byte 8 has high bits 10 and the low six bits of random byte 2; bytes 9-15 are random bytes 3-9 |
| Uuid.UuidWithoutHyphens | aws/src/shared/uuid.py:36-39 | removing the hyphens gives the hex of the sixteen bytes |
| Uuid.BigEndianHexValue | aws/src/shared/uuid.py:22 | the hex of `n.to_bytes(k, "big")` reads back as n |
| TokenStorage.TokenKeyInjective | mobile/lib/auth/storage.ts:6 | different token types are stored under different keys |
| TokenStorage.UserAttributesIsNoTokenKey | mobile/lib/auth/storage.ts:17-20 | `user_attributes` is not a token key |
| TokenStorage.GetAfterSet | mobile/lib/auth/storage.ts:5-11 | `getToken(t)` after `setToken(t, v)` is v |
| TokenStorage.SetLeavesOthers | mobile/lib/auth/storage.ts:5-7 | setting one token leaves every other key unchanged |
| TokenStorage.GetAfterRemove | mobile/lib/auth/storage.ts:13-15 | after `removeToken(t)` that token is null and every other key is kept |
| TokenStorage.ClearRemovesOnlyTokens | mobile/lib/auth/storage.ts:17-20 | `clearTokens` removes every token key and no other key |
| TokenStorage.ClearIdempotent | mobile/lib/auth/storage.ts:17-20 | clearing twice is clearing once |
| TokenStorage.SetToken | mobile/lib/auth/storage.ts:5-7 | the store becomes the old store with the token written |
| TokenStorage.GetToken | mobile/lib/auth/storage.ts:9-11 | returns the stored token text, or null |
| TokenStorage.RemoveToken | mobile/lib/auth/storage.ts:13-15 | the store loses just that token's key |
| TokenStorage.ClearTokens | mobile/lib/auth/storage.ts:17-20 | the store loses exactly the token keys |
| AuthUtils.FromBase64Url | mobile/lib/auth/utils.ts:6 | every '-' becomes '+' and every '_' becomes '/', and nothing else changes |
| AuthUtils.ParseJwtWithoutDot | mobile/lib/auth/utils.ts:5-6 | a token without a '.' has no payload segment, and parsing it throws |
| AuthUtils.ParseJwtReadsPayloadOnly | mobile/lib/auth/utils.ts:4-8 | only the second '.'-separated segment is decoded |
| AuthUtils.ExtractedAttributesAreThePayloads | mobile/lib/auth/utils.ts:10-16 | the attributes are exactly the payload's string `email`, `given_name` and `family_name` |
| AuthUtils.UserInitials | mobile/lib/auth/utils.ts:20-25 | "U" unless both names are present and non-empty; otherwise two characters, the upper-cased first letters |
| AuthUtils.UserFirstName | mobile/lib/auth/utils.ts:27-32 | the given name, or "User" |
| AuthUtils.UserFullName | mobile/lib/auth/utils.ts:34-39 | "given family", or "User" unless both names are present |
| AuthUtils.UserEmail | mobile/lib/auth/utils.ts:41-46 | the email, or "" |
| AuthUtils.InitialsOfFullName | mobile/lib/auth/utils.ts:20-39 | the initials are the upper-cased first letters of the two words of the full name |
| Auth.ClearedLeavesNoSession | mobile/lib/auth/auth.ts:126-127 | clearing leaves no token and no attributes, keeps every other key, and is idempotent |
| Auth.LoginError | mobile/lib/auth/auth.ts:44-52 | UserNotConfirmed reads "User not confirmed"; UserNotFound and NotAuthorized both read "Invalid email or password"; other errors are rethrown as they are |
| Auth.LoginStoresCompleteResult | mobile/lib/auth/auth.ts:32-42 | a login succeeds exactly when the answer has all three tokens and the id token parses; then all three tokens and the id token's attributes are stored |
| Auth.LoginIncompleteStoresNothing | mobile/lib/auth/auth.ts:35-43 | without all three tokens nothing is stored and IncompleteAuthResult is thrown |
| Auth.LoginRejectedStoresNothing | mobile/lib/auth/auth.ts:44-52 | a rejected sign-in stores nothing |
| Auth.LogoutAlwaysClears | mobile/lib/auth/auth.ts:119-134 | logout leaves no tokens and no attributes whatever the server does; it throws exactly when there is no access token or the sign-out fails |
| Auth.Authenticated | mobile/lib/auth/auth.ts:136-149 | authenticated only with both access and refresh tokens present |
| Auth.ExpiryIsStrict | mobile/lib/auth/auth.ts:144 | a token whose `exp` equals now in seconds is not authenticated; one second later than now it is |
| Auth.UnparsableTokenIsNotAuthenticated | mobile/lib/auth/auth.ts:142-148 | an access token that cannot be parsed is not authenticated |
| Auth.RefreshFailureClears | mobile/lib/auth/auth.ts:181-190 | every failed refresh ends with no tokens and no attributes |
| Auth.RefreshWithoutToken | mobile/lib/auth/auth.ts:153-159 | without a refresh token the session is cleared, NoRefreshToken is thrown and the provider plays no part |
| Auth.RefreshSuccess | mobile/lib/auth/auth.ts:170-179 | a successful refresh overwrites access and id, replaces the refresh token only when a new one came back, and changes nothing else |
| Auth.RefreshNeverStoresAttributes | mobile/lib/auth/auth.ts:151-192 | a refresh keeps or removes the attributes, never writes them |
| Auth.CheckAuthStatusOutcome | mobile/lib/auth/auth.ts:194-208 | an authenticated session is kept without a refresh; otherwise the flag is whether the refresh succeeded, and on failure no session is left |
| Auth.ChangePasswordError | mobile/lib/auth/auth.ts:237-245 | InvalidPassword and NotAuthorized get their own messages; other errors are rethrown |
| Auth.ChangePasswordResult | mobile/lib/auth/auth.ts:223-246 | no access token throws NoAccessToken; otherwise the result follows the provider |
| Auth.StoredUser | mobile/lib/auth/auth.ts:248-259 | the stored attribute record, or null |
| Auth.LoginThenGetUser | mobile/lib/auth/auth.ts:39-40 | the attributes a login stores are the ones `getUser` returns |
| Auth.OperationsKeepValid | mobile/lib/auth/auth.ts:22-260 | every operation keeps tokens stored as text and the attributes as a record |
| Auth.AuthService.Login | mobile/lib/auth/auth.ts:23-54 | the store and the result are those `AfterLogin` gives |
| Auth.AuthService.Logout | mobile/lib/auth/auth.ts:119-134 | the store and the result are those `AfterLogout` gives |
| Auth.AuthService.IsAuthenticated | mobile/lib/auth/auth.ts:136-149 | returns `Authenticated` of the store and changes nothing |
| Auth.AuthService.RefreshSession | mobile/lib/auth/auth.ts:151-192 | the store and the result are those `AfterRefresh` gives |
| Auth.AuthService.CheckAuthStatus | mobile/lib/auth/auth.ts:194-209 | the store and the flag are those `AfterCheck` gives |
| Auth.AuthService.ChangePassword | mobile/lib/auth/auth.ts:223-246 | the result is `ChangePasswordResult`, and the store is unchanged |
| Auth.AuthService.GetUser | mobile/lib/auth/auth.ts:248-259 | returns the stored attribute record |
| UserService.Sent | mobile/lib/auth/user.ts:51-53 | exactly the entries with a defined value are sent, and never more entries than the update has |
| UserService.SentConcat | mobile/lib/auth/user.ts:51-53 | the entries are sent in the update's order: the entries of a concatenation are those of its first part, then those of its second |
| UserService.SentOne | mobile/lib/auth/user.ts:51-53 | a defined entry is sent as its name and value, an undefined one is not sent |
| UserService.OverlayValue | mobile/lib/auth/user.ts:75-84 | each key ends with its last defined update value; keys whose value is undefined, and keys the update does not mention, keep their old values |
| UserService.OverlayOfNothing | mobile/lib/auth/user.ts:59-72 | with no current record the stored record is just the defined update values |
| UserService.OverlayIdempotent | mobile/lib/auth/user.ts:75-86 | merging the same update twice changes nothing more |
| UserService.Merge | mobile/lib/auth/user.ts:75-84 | the merge loop computes the overlay of the update on the current record |
| UserService.CachedAttributesReturned | mobile/lib/auth/user.ts:13-17 | cached attributes are returned without a refresh |
| UserService.RefreshFallbackNeverFindsAttributes | mobile/lib/auth/user.ts:19-38 | without cached attributes the call always throws GetAttributesFailed, because a refresh never writes attributes |
| UserService.UpdateError | mobile/lib/auth/user.ts:87-90 | a failed command is reported with its message and name, or with the defaults when they are empty |
| UserService.UpdateChangesOnlyAttributes | mobile/lib/auth/user.ts:42-90 | with no access token (thrown before any call) or a failed command nothing changes; after success only the attribute record changes, to the merge |
| UserService.UpdatedAttributes | mobile/lib/auth/user.ts:75-86 | after success every defined value is stored and every other attribute is kept |
| UserService.UserService.GetUserAttributes | mobile/lib/auth/user.ts:12-40 | the store and the result are those `AfterGetAttributes` gives |
| UserService.UserService.UpdateUserAttributes | mobile/lib/auth/user.ts:42-91 | the store and the result are those `AfterUpdate` gives |
| Bookmarks.Find | app/src/lib/state/bookmarkStore.ts:29-43 | a hash has an item exactly when it is one of the object's keys |
| Bookmarks.Assign | app/src/lib/state/bookmarkStore.ts:32-35 | writing a property sets its value; an existing key keeps its place, a new key goes last; every other key keeps its value |
| Bookmarks.Spread | app/src/lib/state/bookmarkStore.ts:32-35 | a spread has the keys of both objects; the later object's values win, and the earlier object's other values are kept |
| Bookmarks.Remove | app/src/lib/state/bookmarkStore.ts:37-38 | deleting a key from a copy leaves exactly the other keys, with their values |
| Bookmarks.AddBookmarkAction | app/src/lib/state/bookmarkStore.ts:9-16 | the payload has the one key, the item's hash, holding the item |
| Bookmarks.BookmarkReducer | app/src/lib/state/bookmarkStore.ts:29-43 | ADD keeps existing entries over the payload's and adds the payload's new ones; REMOVE drops just that hash and keeps every other entry; other actions return the state |
| Bookmarks.SpreadDisjoint | app/src/lib/state/bookmarkStore.ts:32-35 | spreading an object with none of the target's keys appends its properties in their order |
| Bookmarks.SpreadOverFirst | app/src/lib/state/bookmarkStore.ts:32-35 | spreading the state over a payload key it also has keeps that key first, with the state's value |
| Bookmarks.AddBookmarkOrder | app/src/lib/state/bookmarkStore.ts:31-35 | ADD lists a new hash first, before the earlier bookmarks in their order; a hash already bookmarked moves to the front and keeps its stored item |
| Bookmarks.RemoveKeepsOrder | app/src/lib/state/bookmarkStore.ts:36-39 | REMOVE keeps every other bookmark in its place |
| Bookmarks.AddBookmarkContains | app/src/lib/state/bookmarkStore.ts:31-35 | after ADD the item's hash is bookmarked and listed first; an earlier bookmark of that hash keeps its item |
| Bookmarks.AddBookmarkIdempotent | app/src/lib/state/bookmarkStore.ts:32-35 | adding the same item twice is adding it once |
| Bookmarks.RemoveAbsentBookmark | app/src/lib/state/bookmarkStore.ts:36-39 | removing an absent hash returns the same store |
| Bookmarks.AddThenRemoveBookmark | app/src/lib/state/bookmarkStore.ts:31-39 | removing a bookmark just added, for a hash that was absent, restores the state, order included |
| Likes.LikeReducer | app/src/lib/state/likeStore.ts:33-49 | LIKE maps the hash to true and keeps the other entries; UNLIKE drops just that hash; other actions return the state |
| Likes.LikeIdempotent | app/src/lib/state/likeStore.ts:35-39 | liking twice is liking once |
| Likes.UnlikeUndoesLike | app/src/lib/state/likeStore.ts:35-44 | unliking after liking a hash that was absent restores the original map |
| Categories.CategoryIcon | app/src/lib/constants/categories.ts:43 | the table's icon, or "newspaper-outline" |
| Categories.CategoryDescription | app/src/lib/constants/categories.ts:48 | the table's description, or "News category" |
| Categories.CategoryDisplayName | app/src/lib/constants/categories.ts:45-46 | the table's name; otherwise the first character followed by the rest in lower case, or "" for "" |
| Categories.SupportedCategoriesAreDescribed | app/src/lib/constants/categories.ts:4-41 | every supported category has an icon, a description and a display name |
| Categories.AllIsNotSupported | app/src/lib/constants/categories.ts:4-41 | "ALL" is in every table but not among the supported categories |
| Categories.DisplayNameOfUnknown | app/src/lib/constants/categories.ts:45-46 | an unknown key such as "SCIENCE" is shown as "Science" |
| NewsFilters.SupportedSetSize | app/src/hooks/useNewsFilters.ts:39-42 | the select-all set has the eight supported categories |
| NewsFilters.Cutoff | app/src/hooks/useNewsFilters.ts:84-110 | now minus 24h, 48h, 96h, 7 or 14 days for the matching filter; "all" and every other value give no cutoff |
| NewsFilters.FilteredMembership | app/src/hooks/useNewsFilters.ts:113-146 | an item is kept exactly when, where the category stage applies, one of its categories in upper case is selected, and, where there is a cutoff, its date parses and is not before it |
| NewsFilters.FilteredIsSubsequence | app/src/hooks/useNewsFilters.ts:113-146 | the result is an order-preserving subsequence of the input; no input gives no output |
| NewsFilters.NoActiveFilterKeepsAll | app/src/hooks/useNewsFilters.ts:121-143 | with no category choice in force and "all", the list comes back whole |
| NewsFilters.Toggled | app/src/hooks/useNewsFilters.ts:149-158 | toggling flips the membership of exactly that category |
| NewsFilters.ToggleTwice | app/src/hooks/useNewsFilters.ts:149-158 | toggling twice restores the set |
| NewsFilters.SelectAllOrNoneShowsEveryCategory | app/src/hooks/useNewsFilters.ts:121 | selecting all or none switches the category stage off |
| NewsFilters.FilterState.constructor | app/src/hooks/useNewsFilters.ts:44-59 | starts with the given set, even an empty one, or all supported categories, and with the given time filter |
| NewsFilters.FilterState.HasActiveFilters | app/src/hooks/useNewsFilters.ts:177-180 | when false, the category stage keeps every item |
| NewsFilters.FilterState.HasActiveSort | app/src/hooks/useNewsFilters.ts:181 | false only for "all", which has no cutoff; any filter with a cutoff makes it true |
| NewsFilters.FilterState.ToggleCategory | app/src/hooks/useNewsFilters.ts:149-160 | the selection becomes the toggled set; the time filter is kept |
| NewsFilters.FilterState.ClearAllCategories | app/src/hooks/useNewsFilters.ts:162-164 | the selection becomes empty |
| NewsFilters.FilterState.SelectAllCategories | app/src/hooks/useNewsFilters.ts:166-168 | the selection becomes exactly the supported categories |
| NewsFilters.FilterState.SetSelectedTimeFilter | app/src/hooks/useNewsFilters.ts:64-65 | only the time filter changes |
| ScrollDirection.AtTopResets | app/src/hooks/useScrollDirection.ts:23-29 | an offset at or above the top gives idle, the header shown, nothing accumulated, and that offset as the last |
| ScrollDirection.SmallMovesAccumulate | app/src/hooks/useScrollDirection.ts:20-35 | below the threshold only the accumulator, grown by the delta, and the last offset change |
| ScrollDirection.LargeMovesSetDirection | app/src/hooks/useScrollDirection.ts:35-46 | past the threshold the direction is down for a positive sum and up otherwise, the accumulator restarts, and visibility changes only with the direction, to "shown iff up" |
| ScrollDirection.StepKeepsConsistent | app/src/hooks/useScrollDirection.ts:12-46 | every event keeps "header shown iff not moving down" and the accumulator within the threshold, and records the offset as the last |
| ScrollDirection.RepeatedOffsetIsStable | app/src/hooks/useScrollDirection.ts:17-47 | a repeated offset with nothing accumulated changes nothing |
| ScrollDirection.DefaultThresholdHidesAfterSix | app/src/hooks/useScrollDirection.ts:11 | with the default threshold of 5, a first move of 5 changes nothing visible and a move of 6 hides the header |
| ScrollDirection.ScrollTracker.constructor | app/src/hooks/useScrollDirection.ts:11-15 | starts idle, header shown, at offset 0 with nothing accumulated |
| ScrollDirection.ScrollTracker.OnScroll | app/src/hooks/useScrollDirection.ts:17-49 | the fields become `Step` of the old ones, and consistency is preserved |
| ScheduleScreen.Hour12 | app/screens/schedule/ScheduleScreen.tsx:112 | a non-negative hour maps into 1..12 with the same remainder mod 12; NaN shows as 12 |
| ScheduleScreen.Meridiem | app/screens/schedule/ScheduleScreen.tsx:111 | PM exactly when the hour is a number of at least 12 |
| ScheduleScreen.FormatClockTime | app/screens/schedule/ScheduleScreen.tsx:108-114 | for "HH:MM" the output is the 12-hour value, the minutes unchanged, and AM exactly when the hour is below 12 |
| ScheduleScreen.TwelveHourClock | app/screens/schedule/ScheduleScreen.tsx:112 | hour 0 gives 12, 12 gives 12, 13 gives 1, and hours 0..23 map into 1..12 |
| ScheduleScreen.SampleMorning | app/screens/schedule/ScheduleScreen.tsx:108-114 | "09:00" is shown as "9:00 AM" |
| ScheduleScreen.SampleNoon | app/screens/schedule/ScheduleScreen.tsx:108-114 | "12:30" is shown as "12:30 PM" |
| ScheduleScreen.SampleEvening | app/screens/schedule/ScheduleScreen.tsx:108-114 | "17:00" is shown as "5:00 PM" |
| ScheduleScreen.SampleMidnight | app/screens/schedule/ScheduleScreen.tsx:108-114 | "00:15" is shown as "12:15 AM" |
| ScheduleScreen.FormatTimeWithoutHour | app/screens/schedule/ScheduleScreen.tsx:108-114 | a time without leading digits is shown as 12 AM with the minutes part, or "undefined", passed through |
| ScheduleScreen.DayName | app/screens/schedule/ScheduleScreen.tsx:103-106 | a name exactly for 0..6, undefined otherwise |
| ScheduleScreen.DayNamesInWeekOrder | app/screens/schedule/ScheduleScreen.tsx:103-106 | 0 is Sunday, 1 Monday, 6 Saturday, and the seven names are distinct |
| ScheduleScreen.ToggledActive | app/screens/schedule/ScheduleScreen.tsx:75-78 | same length and order; `isActive` flips exactly on the slots with that id, and nothing else changes |
| ScheduleScreen.ToggleActiveTwice | app/screens/schedule/ScheduleScreen.tsx:77 | toggling twice restores the list |
| ScheduleScreen.WithoutSlot | app/screens/schedule/ScheduleScreen.tsx:96 | exactly the slots with another id remain |
| ScheduleScreen.DeleteKeepsOrder | app/screens/schedule/ScheduleScreen.tsx:96 | the remaining slots keep their order, and deleting again changes nothing |
| RelativeTime.FormatRelativeTime | app/src/components/feature/news/NewsCard.tsx:308-325 | an invalid date prints "NaNw ago" |
| RelativeTime.LabelUnits | app/src/components/feature/news/NewsCard.tsx:315-324 | under 60 s "just now"; otherwise the floor of the age in minutes (1..59), hours (1..23), days (1..6) or weeks (at least 1), each bracketing the age |
| RelativeTime.RecentIsJustNow | app/src/components/feature/news/NewsCard.tsx:313-320 | an age under a minute, or a date in the future, prints "just now" |
| RelativeTime.EpochSeconds | app/src/components/feature/news/NewsCard.tsx:309-310 | ten decimal digits are epoch seconds, multiplied by 1000 |
| RelativeTime.OtherInputsAreParsed | app/src/components/feature/news/NewsCard.tsx:309-310 | any other value goes to the date parser |
| LatestNews.InitialCategories | app/src/screen/news/LatestNewsScreen.tsx:28-37 | a set exactly for a non-empty parameter whose upper case is supported, and then the singleton of it |
| LatestNews.AllParameterIsIgnored | app/src/screen/news/LatestNewsScreen.tsx:31-32 | "all" and "ALL" give undefined, because "ALL" is not a supported category |
| LatestNews.CategoryParameterFilters | app/src/screen/news/LatestNewsScreen.tsx:28-37 | a supported category in any letter case starts the screen filtered to that category |
| LatestNews.InitialTime | app/src/screen/news/LatestNewsScreen.tsx:39-44 | the parameter exactly when it is one of the six allowed filters |
| LatestNews.StartingTimeFilter | app/src/screen/news/LatestNewsScreen.tsx:69 | always one of the allowed filters |
| LatestNews.StartingTimeFilterHasCutoff | app/src/screen/news/LatestNewsScreen.tsx:39-69 | the starting filter is "all" or has a cutoff; a disallowed parameter starts at "all" |
| LatestNews.AllNewsData | app/src/screen/news/LatestNewsScreen.tsx:47-50 | no pages give no news |
| LatestNews.NextPageAppends | app/src/screen/news/LatestNewsScreen.tsx:47-50 | a further page appends its news after the listed ones |
| LatestNews.PageOrderKept | app/src/screen/news/LatestNewsScreen.tsx:47-50 | item j of page k sits at the page's offset plus j |
| LatestNews.LoadMore | app/src/screen/news/LatestNewsScreen.tsx:93-97 | the next page is fetched exactly when there is one and no fetch is running |
| ColorUtils.ReplaceFirst | app/src/styles/utilities.ts:24 | a string without '#' is unchanged, otherwise it loses one character, and a leading '#' is the one removed |
| ColorUtils.ReplaceFirstAt | app/src/styles/utilities.ts:24 | only the first '#' is removed, wherever it is; the characters before and after it are kept in order |
| ColorUtils.ToInt32 | app/src/styles/utilities.ts:25-28 | the 32-bit operand of the bit operators: in range, congruent modulo 2^32, unchanged when already in range |
| ColorUtils.Channels | app/src/styles/utilities.ts:26-28 | each channel is in 0..255 |
| ColorUtils.Clamp | app/src/styles/utilities.ts:29 | the opacity is clamped to [0, 1] |
| ColorUtils.ChannelsRecombine | app/src/styles/utilities.ts:24-28 | for a 24-bit value, r * 65536 + g * 256 + b is the value |
| ColorUtils.WithOpacityOfSixDigits | app/src/styles/utilities.ts:23-30 | for "#rrggbb" the output is "rgba(r, g, b, o)" with channels recombining to the parsed number and the clamped opacity |
| ColorUtils.UnparsableIsBlack | app/src/styles/buildTheme.ts:13-20 | a colour that does not parse prints as black |
| Theme.AdjustedChannels | app/src/styles/buildTheme.ts:26-44 | for "#rrggbb" the result is "#" and six hex digits whose channels are min(255, c + amt) in dark mode and max(0, c - amt) in light mode |
| Theme.LargerAmountMovesFurther | app/src/styles/buildTheme.ts:31-41 | a larger amount moves each channel at least as far |
| Theme.CreateInteractiveStates | app/src/styles/buildTheme.ts:46-52 | the default state is the base colour |
| Theme.PressedBeyondHover | app/src/styles/buildTheme.ts:48-49 | pressed lies at least as far from the base as hover, channel by channel: in light mode pressed <= hover <= base, in dark mode the reverse |
| Theme.Reversed | app/src/styles/buildTheme.ts:64-75 | the reversal has the same length, and element i is element n - 1 - i |
| Theme.DarkScaleIsReversal | app/src/styles/buildTheme.ts:64-75 | the dark neutral scale is the reversal of the neutral scale, so applying it twice restores it |
| Theme.NeutralScale | app/src/styles/buildTheme.ts:61-76 | the premium palette in premium mode, the reversed neutral scale in dark mode, the neutral scale in light mode |

## Left out

- AWS calls that fail (boto3 raising on `query`, `get_item`, `put_item`, `update_item` or `delete_item`) are not modelled. The handlers' 500 answers for those failures are therefore absent, but the 500s from Python exceptions in the handlers' own code are modelled. Access denied by S3 on a media deletion is modelled as an input.
- The JSON text of responses, `DecimalEncoder`, and the headers of `build_response` are plumbing. Only the status code and the body value are modelled.
- `LambdaEvent.Route`: the text of the exception appended to the router's own 500 message is not modelled.
- The read-then-write window in the Lambda handlers is a concurrency concern. Each handler call is atomic.
- PyConfig.OptionKey: `configparser` lower-cases option names with `str.lower`, and the model maps ASCII letters only. Names with non-ASCII capitals are not folded.
- ReplaceSection: on `DuplicateOptionError` the model keeps the parser as it was. Python has then already cleared the section and stored the names before the clash, in the dict's order, which a map does not carry. The option name in the error message is not modelled.
- UserInitials: `AuthUtils.UserInitials` upper-cases ASCII letters only, where JavaScript's `toUpperCase` maps every Unicode letter. For "émile" and "zoé" JavaScript gives "ÉZ" and the model "éZ".
- CategoryDisplayName: `Categories.CategoryDisplayName` lower-cases ASCII letters only, where JavaScript's `toLowerCase` maps every Unicode letter.
- MatchesCategory: `NewsFilters.MatchesCategory`, and so `NewsFilters.Filtered`, upper-case the item's categories with ASCII letters only. A category with a non-ASCII lower-case letter is not matched as JavaScript would match it.
- InitialCategories: `LatestNews.InitialCategories` upper-cases the route parameter with ASCII letters only. Non-ASCII letters are not mapped as JavaScript's `toUpperCase` maps them.
- BookmarkReducer: JavaScript lists keys that are canonical array indices ("0", "42") first, in numeric order. The model keeps insertion order for every hash.
- LikeReducer: the like store is modelled as a map, so its key order is not kept. The app only asks whether a hash is liked.
- PyJson.Json: JSON numbers are integers. Floats are not modelled, so a fractional value (such as a JWT `exp` of 1.5) and the falsiness of `0.0` cannot arise.
- QueryByUser: the handlers read only the first page of the `UserIdIndex` query, and never follow `LastEvaluatedKey`. `ItemTable.QueryByUser` returns every owned item, as if every answer fits one page.
- The `configparser` file format, interpolation and the writing of sections on disk are not modelled. A file is represented by its parsed contents.
- Facebook time stamps are whole seconds. The fractional part of `datetime.utcnow().timestamp()` is not modelled. Python `float` parsing covers digit strings with an optional fraction only.
- The Graph API module's calls (`getShortLivedUserAccessToken`, `getLongLivedUserAccessToken`, `getUserID`, `getManagedPageAccessDetails`) are inputs. GraphAPI.py is not part of this model, and the provider reply is treated as a map of options.
- Facebook.py's `getManagedPageDetails` prints the provider reply; the print is left out. `Facebook.PageDetailsRequest` only models which user id and token that request would use, and states no property. `postPhototoPage` and the module-level script code are left out.
- The string values of `TokenType` are declared in mobile/lib/auth/types.ts, which is not part of this model. The three members stand for any three distinct names.
- Auth.AuthError: the class is declared in mobile/lib/auth/errors.ts, which is not part of this model. The model takes `new AuthError(message, name)` to keep its second argument as `.name`.
- AsyncStorage's JSON text for the attribute record is not modelled. A record reads back as itself, and a stored text cannot be malformed.
- `signUp`, `confirmSignUp`, `forgotPassword`, `confirmForgotPassword` and `resendVerificationCode` only forward to Cognito, and are left out.
- Base64 decoding, `JSON.parse` and `new Date(text)` are parameters. Their grammars are not modelled.
- In the token payload, non-string attribute values are not modelled.
- `RelativeTime.PublishedMs`: whether `Number(dateValue)` is a number is an input (`numeric`), as the `Number` grammar is not modelled. JavaScript float precision beyond 2^53, and `NaN` arithmetic beyond the invalid-date case, are not modelled.
- `ScrollDirection.ScrollTracker.OnScroll` reads the current direction. The React callback reads the direction of its last render, and the state setters apply asynchronously. Scroll offsets are integers, and fractional offsets are not modelled.
- The filter hook's global `FilterContext`, the `useEffect` synchronisation with route parameters, and the modal visibility helpers are left out. The `try`/`catch` around `new Date` in the time stage is left out, as `new Date` does not throw.
- In the latest-news screen, a `category` parameter that arrives as an array (the `typeof` check) is not modelled.
- In the category tables, keys inherited from `Object.prototype` are not modelled.
- `Theme.CreateInteractiveStates`: `Math.round(2.55 * amount)` is taken as the natural-number inputs `hoverAmt` and `pressedAmt`. The `disabled` colour is a neutral table constant, and that table is not part of this model. Printing the opacity is a parameter `show`.
- `ColorUtils.WithOpacity`: a `NaN` opacity is not modelled, since opacities are reals.
- ColorUtils.WithOpacity: `Numerals.JsParseInt` gives the exact integer, where JavaScript's `parseInt` gives a double that is rounded once the value passes 2^53, before `>>` and `&` cut it to 32 bits. For "#" and fifteen 'f's JavaScript prints `rgba(0, 0, 0, o)` and the model gives the channels 255, 255, 255. Only the six-digit case is proved about.
- Theme.AdjustColor: the color is parsed with `Numerals.JsParseInt` to the exact integer, so the double rounding of `parseInt` past 2^53 is not modelled, as for `ColorUtils.WithOpacity`.
- ScheduleScreen.FormatTime: the hour is parsed to the exact integer, so an hour of more than 2^53 is not rounded as JavaScript's `parseInt` rounds it.
- The design tables (`primitives.ts`, `colors.ts`, typography, Tailwind), the rest of `buildTheme`, and every React component, screen, context and network hook are static data or rendering. They are left out.
- `Theme.AdjustColor`: for inputs with more than six hex digits, the red channel is `num >> 16` without a mask, as in the source, and only the six-digit case is proved about.
