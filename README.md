# Blogger: release webhook, API envelope and front-end state, in Dafny

This project models the parts of the Blogger repository that make decisions.

**Release webhook server.** GitHub posts release events to the webhook server. The server:
- checks the `x-hub-signature-256` header against an HMAC-SHA256 of the raw body;
- decodes the release payload with serde's derived rules;
- ignores actions other than `published`/`released`, and ignores drafts and prereleases;
- runs the deployment script with the tag as its single argument;
- answers with a status and a `{message, success}` body.

The handler is a pure function of the request and three collaborators: the MAC, the JSON parser and the process runner. It returns the response together with the script invocation, if there is one. A `WebhookServer` class wraps it, and a `ScriptRunner` class records every invocation.

**API crate.**
- The configuration's server address and CORS origin list.
- The `Result` → `ApiResponse` → HTTP response envelope.

**Web front end.**
- The `yyyy-mm-dd` formatter and the "3 days ago" phrase chooser.
- The timeline category lookup.
- Four Pinia stores, as classes whose methods are given the outcome of their network call:
  - timeline: cursor pagination and filters;
  - user groups: list edits and selection;
  - user: sign-in persisted to local storage;
  - theme: light/dark, applied to the document and persisted.

The timeline store's `fetchPosts` awaits its response. It is split into the part before the network call (`FetchPosts`) and the part after it (`Receive`), so operations that run in between are part of the model. `TimelineStore.FilterChangeWhilePending` shows one such interleaving. A filter change made while a fetch is pending does not fetch at all, because `fetchPosts` returns early while loading. The pending response then fills the list under the new filter.

## Model

| member | source | states |
|---|---|---|
| WebhookSignature.GetHeader | backend/webhook-server/src/main.rs:114-116 | The header lookup finds nothing exactly when no header has that name; otherwise it yields the value of the first header with that name. |
| WebhookSignature.HeaderText | backend/webhook-server/src/main.rs:117-118 | A header value is text exactly when every byte is visible ASCII or a tab, and the text is then those bytes unchanged. |
| WebhookSignature.StripPrefix | backend/webhook-server/src/main.rs:121-123 | Stripping succeeds exactly when the string starts with the prefix, and the prefix followed by the rest gives the string back. |
| Hex.HexDecode | backend/webhook-server/src/main.rs:126-127 | Hex decoding succeeds exactly on an even-length string of hex digits of either case, and yields half as many bytes as characters. |
| Hex.DecodeEncode | backend/webhook-server/src/main.rs:126-127 | Decoding the lower-case hex rendering of any bytes gives those bytes back. |
| WebhookSignature.ClaimedDigest | backend/webhook-server/src/main.rs:114-127 | Reading the claimed digest fails only with "missing header" or "invalid format", and with "missing header" exactly when the header is absent. A present header succeeds exactly when it is visible ASCII text, starts with `sha256=` and the rest is hex, and the digest is then the hex decoding of the rest. |
| WebhookSignature.ValidateSignature | backend/webhook-server/src/main.rs:108-140 | Validation succeeds exactly when the key is accepted and the claimed digest equals the MAC of the body. Each of the four errors occurs exactly under its own condition, checked in source order. |
| WebhookSignature.HeaderTextOfAscii | backend/webhook-server/src/main.rs:117-118 | Any visible-ASCII text sent as a header value reads back as that text. |
| WebhookSignature.UnsignedRequestIsMissingHeader | backend/webhook-server/src/main.rs:114-116 | Without a signature header the check fails as "missing header", whatever the secret and body. |
| WebhookSignature.ClaimedDigestOfSignatureHeader | backend/webhook-server/src/main.rs:114-127 | A header `sha256=` + lower-case hex of a digest, placed first, yields exactly that digest. |
| WebhookSignature.SignedRequestAccepted | backend/webhook-server/src/main.rs:130-139 | A request signed with the MAC of its own body under the configured key passes validation. |
| WebhookSignature.ForgedDigestRejected | backend/webhook-server/src/main.rs:136-137 | Any other well-formed digest fails with "Signature verification failed". |
| WebhookSignature.EmptyDigestIsMismatch | backend/webhook-server/src/main.rs:121-137 | `sha256=` with nothing after it is well formed (an empty digest) and fails as a mismatch, not as a format error. |
| WebhookSignature.WrongPrefixIsFormatError | backend/webhook-server/src/main.rs:121-123 | A `sha1=` header fails with "Invalid signature format". |
| WebhookPayload.AsString | backend/webhook-server/src/main.rs:25 | A string field accepts exactly JSON strings, and keeps their content. |
| WebhookPayload.AsBool | backend/webhook-server/src/main.rs:34-35 | A boolean field accepts exactly JSON booleans, and keeps their value. |
| WebhookPayload.AsOptionalString | backend/webhook-server/src/main.rs:33 | `name` accepts exactly null or a string, and null reads as no name. |
| WebhookPayload.DecodeRepository | backend/webhook-server/src/main.rs:38-42 | A value that is neither object nor array is an invalid-type error; an array decodes exactly when it holds two strings, read in field order; no error is a syntax error. |
| WebhookPayload.DecodeRelease | backend/webhook-server/src/main.rs:30-36 | A value that is neither object nor array is an invalid-type error; an array decodes exactly when it holds a string, a string or null, and two booleans; no error is a syntax error. |
| WebhookPayload.DecodePayload | backend/webhook-server/src/main.rs:23-28 | A value that is neither object nor array is an invalid-type error; an array decodes exactly when it holds an action string and a decodable release and repository; no error is a syntax error. |
| WebhookPayload.DecodeBody | backend/webhook-server/src/main.rs:163-164 | The error is a syntax error exactly when the parser rejects the text, and keeps the parser's message; a decoded payload is the decoding of the parsed document. |
| WebhookPayload.DecodeRepositoryToJson | backend/webhook-server/src/main.rs:39-42 | Every repository, written as a JSON object, decodes back to itself. |
| WebhookPayload.DecodeReleaseToJson | backend/webhook-server/src/main.rs:30-36 | Every release decodes back to itself, including one whose `name` member is left out. |
| WebhookPayload.DecodePayloadToJson | backend/webhook-server/src/main.rs:23-28 | Every payload, nested objects included, decodes back to itself. |
| WebhookPayload.PayloadMembersNeedKeys | backend/webhook-server/src/main.rs:23-28 | A payload field ends up read only if it was read before or its key occurs among the members. |
| WebhookPayload.PayloadMembersRejectRepeat | backend/webhook-server/src/main.rs:23-28 | A payload field that occurs again after it was read makes decoding fail. |
| WebhookPayload.MissingPayloadFieldRejected | backend/webhook-server/src/main.rs:23-28 | An object lacking `action`, `release` or `repository` does not decode. |
| WebhookPayload.DuplicatePayloadFieldRejected | backend/webhook-server/src/main.rs:23-28 | An object with `action`, `release` or `repository` twice does not decode. |
| WebhookPayload.DuplicateFromAcc | backend/webhook-server/src/main.rs:23-28 | From any starting state, two occurrences of one payload field make the member fold fail. |
| WebhookPayload.UnknownMemberIgnored | backend/webhook-server/src/main.rs:23-28 | A member with any other key, wherever it stands, does not change the outcome. |
| WebhookPayload.ReleaseMembersNeedKeys | backend/webhook-server/src/main.rs:31-36 | A required release field ends up read only if its key occurs among the members. |
| WebhookPayload.MissingReleaseFieldRejected | backend/webhook-server/src/main.rs:31-36 | A release lacking `tag_name`, `draft` or `prerelease` does not decode; `name` may be missing. |
| WebhookPayload.RepositoryMembersNeedKeys | backend/webhook-server/src/main.rs:39-42 | A repository field ends up read only if its key occurs among the members. |
| WebhookPayload.MissingRepositoryFieldRejected | backend/webhook-server/src/main.rs:39-42 | A repository lacking `full_name` or `clone_url` does not decode. |
| WebhookPayload.PayloadMembersProvenance | backend/webhook-server/src/main.rs:23-28 | Every field value the fold ends with was decoded from a member with that key. |
| WebhookPayload.NestedMissingFieldRejected | backend/webhook-server/src/main.rs:23-36 | A payload whose every `release` object lacks a required release field does not decode. |
| WebhookPayload.NestedMissingRepositoryFieldRejected | backend/webhook-server/src/main.rs:23-42 | A payload whose every `repository` object lacks `full_name` or `clone_url` does not decode. |
| Webhook.DeploymentResult | backend/webhook-server/src/main.rs:241-258 | The script succeeds exactly when it ran and exited with status 0, and then yields its stdout. A spawn failure and a failed run give their two error messages. |
| Webhook.DeployResponse | backend/webhook-server/src/main.rs:212-236 | The deploy outcome decides the response: success is 200, failure is 500, and `success` follows. |
| Webhook.Decide | backend/webhook-server/src/main.rs:149-204 | The handler goes on to deploy exactly when the request is authentic, decodes and passes the action, draft and prerelease filter, and then with the release's tag. A bad signature gives 401 and a bad payload 400, both unsuccessful; every other early return is a successful 200. |
| Webhook.HandleWebhook | backend/webhook-server/src/main.rs:143-237 | On every path `success` is true exactly when the status is 200, and the status is one of 200, 400, 401 and 500. The script runs exactly when the request is authentic, decodes, has a deploy action and is neither draft nor prerelease, and then it gets the tag as its only argument. |
| Webhook.SignatureCheckedFirst | backend/webhook-server/src/main.rs:149-158 | When the signature fails, the answer is 401 "Signature validation failed: <reason>" whatever the parser and the runner would do: the body is never parsed and nothing runs. |
| Webhook.MissingSignatureHeader | backend/webhook-server/src/main.rs:114-158 | Without the header the answer is 401 "Signature validation failed: Missing X-Hub-Signature-256 header". |
| Webhook.UndecodableBodyRejected | backend/webhook-server/src/main.rs:163-175 | An authentic body that does not decode gets 400 "Invalid payload: <error>" and runs nothing. |
| Webhook.OtherActionIgnored | backend/webhook-server/src/main.rs:183-192 | Any action but `published`/`released` gets 200 "Ignoring action: <action>" and runs nothing, even for a draft. |
| Webhook.DraftOrPrereleaseIgnored | backend/webhook-server/src/main.rs:194-204 | A draft or prerelease with a deploy action gets 200 "Ignoring draft or prerelease". |
| Webhook.DeploymentReported | backend/webhook-server/src/main.rs:212-258 | When the script runs, a zero exit gives 200 "Deployment triggered successfully for tag <tag>"; a failed run or spawn gives 500 "Deployment failed: " followed by the script's error text. |
| Webhook.SignedPublishedReleaseDeploys | backend/webhook-server/src/main.rs:143-212 | A correctly signed, published, final release always reaches the script, with its tag. |
| Webhook.ScriptRunner.Run | backend/webhook-server/src/main.rs:246-250 | Running a program records exactly that program with those arguments, and the output is that run's outcome. |
| Webhook.ScriptRunner.ExecuteDeployment | backend/webhook-server/src/main.rs:241-258 | Exactly one invocation, the script with the tag as its single argument, is recorded, and the result is that run's outcome. |
| Webhook.WebhookServer.HandleGithubWebhook | backend/webhook-server/src/main.rs:143-237 | The server answers as the handler function does, and the script is invoked once or never, as the handler says. |
| Webhook.DeliverTwice | backend/webhook-server/src/main.rs:143-237 | Nothing deduplicates deliveries: the same signed release delivered twice records the same invocation twice. |
| ApiConfig.ServerAddress | backend/api/src/config.rs:34-39 | Without a port the address is the host unchanged; with one, it is the host, a colon and decimal digits that read back as the port. |
| ApiConfig.ServerAddressRoundTrip | backend/api/src/config.rs:34-39 | Splitting the address at its last colon gives back host and port: for any host when there is a port, and for a host without colons when there is none. |
| ApiConfig.ServerAddressNotInjective | backend/api/src/config.rs:36-37 | A host "h:80" without a port and host "h" with port 80 give the same address. |
| ApiConfig.FrontendOrigins | backend/api/src/config.rs:46-54 | A frontend contributes two origins with a port, and without one exactly its host, verbatim and with no scheme added. |
| ApiConfig.FrontendOriginsParseBack | backend/api/src/config.rs:47-50 | With a port, the first origin splits at its last colon into "http://" plus the host and that port, and the second into "http://localhost" and that port. |
| ApiConfig.CorsOrigins | backend/api/src/config.rs:42-68 | The pushes give all the web frontend's origins, then all the admin frontend's. |
| ApiConfig.CorsOriginsCount | backend/api/src/config.rs:42-68 | The list holds 2 origins plus one per frontend with a port, so between 2 and 4. |
| ApiResponses.FromResult | backend/api/src/response.rs:45-53 | `Ok` becomes `Success` and `Err` becomes `Failure`, carrying the same value. |
| ApiResponses.FromResultBijective | backend/api/src/response.rs:45-53 | The conversion and its inverse undo each other, so no case is lost or added. |
| ApiResponses.IntoApiError | backend/api/src/response.rs:20-30 | The error takes its type's status and code, and its display text as the message. |
| ApiResponses.ErrorBody | backend/api/src/response.rs:37-43 | The serialized error is an object holding exactly `code` and `message`, in that order. |
| ApiResponses.IntoHttpResponse | backend/api/src/response.rs:55-62 | A success answers with its type's status and its serialized value; a failure answers with the error's own status and its body. |
| ApiResponses.StatusNotInBody | backend/api/src/response.rs:39-40 | The status is not part of the body: errors differing only in status have the same body, and it has no status member. |
| ApiResponses.FailureResponse | backend/api/src/response.rs:20-62 | A failing handler answers with its error type's status, and a body of the type's code and the error's text. |
| ApiResponses.SuccessResponse | backend/api/src/response.rs:45-58 | A successful handler answers with its payload type's status, whatever the value. |
| Text.PadStart | frontend/web/src/lib/date-utils.ts:7-8 | `padStart` reaches the width by prefixing only fill characters, and keeps the string as its tail. |
| DateUtils.FormatDate | frontend/web/src/lib/date-utils.ts:4-10 | The rendering is the year's decimal text, a dash, two digits reading as month+1, a dash, and two digits reading as the day. |
| DateUtils.ParseFormatDate | frontend/web/src/lib/date-utils.ts:4-10 | Year, month and day can be read back from the rendering. |
| DateUtils.FormatDateInjective | frontend/web/src/lib/date-utils.ts:4-10 | Distinct dates are rendered differently. |
| DateUtils.Classify | frontend/web/src/lib/date-utils.ts:27-45 | Each day difference falls in exactly one bucket: today (0), days (other values below 7, negatives included), weeks 1..4 (7..29), months 1..12 (30..364), long ago (365 on). The week and month counts are the whole weeks and 30-day months elapsed. |
| DateUtils.RelativeDate | frontend/web/src/lib/date-utils.ts:27-45 | The branch chain says what the classification into today, days, whole weeks, 30-day months or a year and more says, singular for a count of one. |
| DateUtils.FutureDateReadsAsDaysAgo | frontend/web/src/lib/date-utils.ts:31-32 | A negative difference (a future date) gives "-n days ago". |
| DateUtils.ParsePhraseOfPhrase | frontend/web/src/lib/date-utils.ts:27-45 | Every phrase can be read back into the bucket and count it came from. |
| DateUtils.PhraseInjective | frontend/web/src/lib/date-utils.ts:27-45 | Different buckets or counts never share a phrase. |
| DateUtils.RelativeDateSame | frontend/web/src/lib/date-utils.ts:27-45 | Two day differences get the same phrase exactly when they fall in the same bucket with the same count. |
| DateUtils.GetDateDisplay | frontend/web/src/lib/date-utils.ts:51-56 | The absolute part is the formatted date and reads back as the date, and the relative part is the phrase for the day difference. |
| Categories.ReadProperty | frontend/web/src/lib/timeline.ts:8-14 | A property read on the map finds an own entry exactly for "generic" and "unknown", and an inherited member exactly for the names on `Object.prototype`. |
| Categories.AsWrittenReturnsInheritedMember | frontend/web/src/lib/timeline.ts:13-15 | As written, "toString" or "constructor" gets an inherited member, not a category config. |
| Categories.GetCategoryConfigAsWritten | frontend/web/src/lib/timeline.ts:13-15 | The lookup as written never yields undefined; it yields the inherited member exactly for the names of `Object.prototype` members, and otherwise a config that is the generic one exactly for "generic". |
| Categories.GetCategoryConfig | frontend/web/src/lib/timeline.ts:8-15 | "generic" gets (📝, #6366f1), and every other name gets the unknown entry (❓, #6b7280). |
| Categories.GetCategoryConfigIsOwnEntryOrFallback | frontend/web/src/lib/timeline.ts:8-15 | The generic entry comes back exactly for "generic", and each key of the map gets its own entry. |
| Categories.AsWrittenAgreesElsewhere | frontend/web/src/lib/timeline.ts:13-15 | The code as written agrees with the intended lookup exactly on the names outside `Object.prototype`. |
| StoreCommon.MessageOr | frontend/web/src/stores/timeline.ts:50 | An absent or empty error message gives the store's fallback text. |
| StoreCommon.ThrownText | frontend/web/src/stores/timeline.ts:63 | A thrown `Error` gives its message, even an empty one; anything else thrown gives "Unknown error". |
| StoreCommon.FailureText | frontend/web/src/stores/user-groups.ts:27-36 | An error text is recorded exactly for an error response or an exception, and an error response never records an empty text. |
| TimelineStore.BuildQuery | frontend/web/src/stores/timeline.ts:31-43 | The query always asks for 20 posts. It carries the cursor exactly on a non-reset fetch with a non-empty cursor. It carries at most one filter, the user filter taking precedence, and only a non-empty one. |
| TimelineStore.CursorOf | frontend/web/src/stores/timeline.ts:60 | The next cursor is the response's when that is non-empty, and null otherwise. |
| TimelineStore.TimelineStore.HasMore | frontend/web/src/stores/timeline.ts:17 | There is more exactly when a cursor is stored. |
| TimelineStore.TimelineStore.FetchPosts | frontend/web/src/stores/timeline.ts:23-47 | Nothing changes while loading, nor on a non-reset fetch without more. Otherwise loading starts, the error clears and the query for the current cursor and filters is sent. |
| TimelineStore.TimelineStore.Receive | frontend/web/src/stores/timeline.ts:49-66 | Data replaces the posts after a reset fetch, or is appended in order after the existing posts, and sets the cursor. A failure keeps posts and cursor and records its text. Loading ends in every case. |
| TimelineStore.TimelineStore.Reset | frontend/web/src/stores/timeline.ts:80-85 | Posts, cursor and error are cleared, then a reset fetch starts unless one is pending. |
| TimelineStore.TimelineStore.SetFilter | frontend/web/src/stores/timeline.ts:69-78 | A given user filter clears the group filter, else a given group filter clears the user filter; at most one is ever set; then the store resets, clearing posts, cursor and error. |
| TimelineStore.TimelineStore.LoadMore | frontend/web/src/stores/timeline.ts:87-91 | A fetch starts exactly when there is more and nothing is loading. It sends a page of 20 from the stored cursor with the stored filter and clears the error; posts, cursor and filters are kept. |
| TimelineStore.FilterChangeWhilePending | frontend/web/src/stores/timeline.ts:23-85 | A filter change while the previous filter's fetch is pending sends no query, and the previous filter's posts end up listed under the new filter. |
| UserGroupsStore.FindIndex | frontend/web/src/stores/user-groups.ts:84 | The index is the first position holding the id, or -1 when none does. |
| UserGroupsStore.RemoveById | frontend/web/src/stores/user-groups.ts:112 | What remains is every group with another id and nothing else. |
| UserGroupsStore.RemoveByIdAppend | frontend/web/src/stores/user-groups.ts:112 | Filtering works element by element, so the remaining groups keep their order. |
| UserGroupsStore.RemoveByIdIdempotent | frontend/web/src/stores/user-groups.ts:112 | Filtering the same id twice removes nothing more. |
| UserGroupsStore.ReplaceFirst | frontend/web/src/stores/user-groups.ts:84-87 | Only the first group with the id is replaced; the length and all other positions are unchanged, and nothing changes when no group matches. |
| UserGroupsStore.UserGroupsStore.FetchGroups | frontend/web/src/stores/user-groups.ts:20-40 | Data replaces the list. A failure keeps the list and records its text. Loading ends false. |
| UserGroupsStore.UserGroupsStore.CreateGroup | frontend/web/src/stores/user-groups.ts:42-66 | The created group is appended after the unchanged list and returned. Otherwise nothing is added and null comes back. |
| UserGroupsStore.UserGroupsStore.UpdateGroup | frontend/web/src/stores/user-groups.ts:68-96 | The returned group replaces the first group with that id and is returned; a failure changes nothing and returns null. |
| UserGroupsStore.UserGroupsStore.DeleteGroup | frontend/web/src/stores/user-groups.ts:98-123 | Unless the call fails, every group with the id is removed, the selection is cleared only if it was that id, and the result is true; a failure changes neither. |
| UserGroupsStore.UserGroupsStore.ChangeMembership | frontend/web/src/stores/user-groups.ts:125-177 | A failed call records its text and returns false. Otherwise the groups are fetched again and the result is true, even when that refresh fails. |
| UserGroupsStore.UserGroupsStore.AddMember | frontend/web/src/stores/user-groups.ts:125-149 | As above, with "Failed to add member" as the fallback text. |
| UserGroupsStore.UserGroupsStore.RemoveMember | frontend/web/src/stores/user-groups.ts:151-177 | As above, with "Failed to remove member" as the fallback text. |
| UserGroupsStore.UserGroupsStore.SelectGroup | frontend/web/src/stores/user-groups.ts:179-181 | The selection becomes the argument and nothing else changes. |
| JsonValues.LastValue | frontend/web/src/stores/user.ts:18-20 | Reading a key of a parsed object finds nothing exactly when the key is absent, and otherwise finds the value of the last member with that key. |
| UserStore.StringMember | frontend/web/src/stores/user.ts:20 | A member counts as a string exactly when its last occurrence is a JSON string. |
| UserStore.AsUser | frontend/web/src/stores/user.ts:20-21 | A parsed value is a user exactly when it is an object whose `id` and `name` are strings. |
| UserStore.InitialUser | frontend/web/src/stores/user.ts:14-31 | An absent or empty entry gives no user and is kept. For a non-empty entry, the key is removed exactly when no user results, as for text that does not parse. A user comes only from an entry that parses and passes the check. |
| UserStore.AsUserOfUserToJson | frontend/web/src/stores/user.ts:18-21 | Every user, once serialized, passes the structure check and reads back as itself. |
| UserStore.UserStore.constructor | frontend/web/src/stores/user.ts:14-33 | The store starts with the stored user, and an invalid entry is removed. |
| UserStore.UserStore.IsLoggedIn | frontend/web/src/stores/user.ts:34 | Logged in exactly when there is a current user. |
| UserStore.UserStore.Login | frontend/web/src/stores/user.ts:37-48 | The user becomes current and is written to storage under "blogger-user". |
| UserStore.UserStore.Logout | frontend/web/src/stores/user.ts:37-53 | No user is current, and the key is removed if someone was signed in. |
| UserStore.UserStore.EffectiveUserId | frontend/web/src/stores/user.ts:56-61 | A non-empty route id wins, then a non-empty signed-in id, else null; an empty id never comes back. |
| UserStore.UserStore.MockLogin | frontend/web/src/stores/user.ts:64-70 | The demo user becomes current and is written to storage. |
| UserStore.LoginSurvivesReload | frontend/web/src/stores/user.ts:14-48 | After a sign-in, a store created from the resulting storage starts with the same user. |
| UserStore.LogoutSurvivesReload | frontend/web/src/stores/user.ts:14-53 | After a sign-out, a store created from the resulting storage starts with no user and no entry. |
| ThemeStore.Name | frontend/web/src/stores/theme.ts:4 | A theme is always "light" or "dark". |
| ThemeStore.InitialTheme | frontend/web/src/stores/theme.ts:10-22 | A stored "light" or "dark" wins. Otherwise the theme is dark exactly when `matchMedia` exists and reports a dark preference. |
| ThemeStore.SavedThemeRestored | frontend/web/src/stores/theme.ts:10-38 | A saved theme is chosen at the next start, whatever the system prefers. |
| ThemeStore.Toggled | frontend/web/src/stores/theme.ts:41-43 | Toggling always gives the other theme. |
| ThemeStore.ToggledTwice | frontend/web/src/stores/theme.ts:41-43 | Toggling twice restores the original theme. |
| ThemeStore.ThemeStore.constructor | frontend/web/src/stores/theme.ts:10-32 | The store starts with the initial theme, already applied to the document, and storage untouched. |
| ThemeStore.ThemeStore.Changed | frontend/web/src/stores/theme.ts:27-38 | The watcher sets the document attribute to the current theme and saves it under "blogger-theme". |
| ThemeStore.ThemeStore.ToggleTheme | frontend/web/src/stores/theme.ts:41-43 | The theme flips, and the document and storage follow. |
| ThemeStore.ThemeStore.SetTheme | frontend/web/src/stores/theme.ts:46-48 | The theme becomes the argument. The document always shows it, and storage is written only when it changed. |
| ThemeStore.ToggleSurvivesReload | frontend/web/src/stores/theme.ts:10-43 | After a toggle, a store created from the resulting storage starts with, and shows, the toggled theme. |

## Left out

- HMAC-SHA256 itself is a parameter: `MacScheme.tag` gives the digest and `MacScheme.acceptsKey` says whether a key is usable. Which keys make `new_from_slice` fail is not claimed. The constant-time comparison of `verify_slice` is a timing property and is not modelled.
- The secret is given as bytes; its UTF-8 encoding from the configured string is not modelled.
- serde_json's tokenizer is a parameter from bytes to a parsed value or a syntax message. Error texts omit serde's " at line L column C" suffix. String escapes in messages are not rendered. JSON numbers are integers.
- The model parses the whole body before decoding it, so a body with both a syntax error and a structural error always gets the syntax error. serde_json reads the body in one pass and reports whichever error comes first in the text; that order is not modelled.
- Header names are taken as already lower-case; the http crate's case-insensitive name matching is not modelled.
- `String::from_utf8_lossy` on the script's stdout and stderr is not modelled: outputs are given as text.
- Process spawning, the tokio runtime, the axum router, `main`, the liveness routes, environment loading and tracing are I/O. The process outcome is a parameter, and each invocation is recorded.
- Webhook.DeliverTwice: the equal responses rely on the script's outcome being a fixed function of its path and arguments. A script that behaves differently on a second run, as a real deployment script may, is not modelled.
- `AppConfig::load` and the rest of the API crate (database routes, middleware, models, OpenAPI generation) are not part of this model.
- ApiResponses.IntoHttpResponse: axum's content-type header and its 500 response when serialization fails are not modelled; serialization is a parameter that cannot fail.
- JavaScript `Date` is not modelled: time zones, parsing date strings, invalid dates ("NaN-NaN-NaN") and the floating-point division behind the day difference. The formatter takes a calendar date; the phrase takes the whole-day difference. A daylight-saving day of 23 hours, which can make that difference one less, is therefore not covered.
- Vue reactivity is modelled only by its effect: a watcher runs right after a change of value. UserStore.UserStore.Login always counts as a change, since callers pass a new object; passing the same object twice, which Vue would not see as a change, is not modelled.
- The user-groups store runs each call to completion, so the `loading = true` state in the middle of a call, and calls that overlap, are not visible there. The timeline store does model the wait.
- Request bodies (group names, member ids) go to the server and do not affect the store's own state, so they are not modelled. `null` and `undefined` results are merged into one "no value".
- UserStore.AsUser: `parsed as User` keeps every member of the parsed object. The model keeps `id`, `name`, and `avatarUrl` when it is a string.
- The timeline response's `next_cursor` is taken as the front end reads it; whether the server sends it is outside this model.
- The database-backed route handlers, the seeding program, the Python developer scripts, the router and build configuration, and the shared API client are not part of this model.

## Findings

| source | as written | input that shows it | evidently intended | confidence | as-written member | corrected member |
|---|---|---|---|---|---|---|
| frontend/web/src/lib/timeline.ts:14 | `categoryMap[category] \|\| categoryMap.unknown` is a property read on a plain object, so it also finds members inherited from `Object.prototype`. | category "toString" (or "constructor", "valueOf", "__proto__") gets a function or object, whose `icon` and `color` are undefined | every name that is not a key of the map gets the unknown entry | not executed | Categories.GetCategoryConfigAsWritten | Categories.GetCategoryConfig |
