# plex-client, modelled in Dafny

A model of the Plex gateway library `libs/plex-client`. The library turns typed calls into
authenticated HTTP requests against two hosts: the cloud service `https://plex.tv` (PINs,
the user, servers, friends, home users) and the configured media server (library
sections, items, metadata, children, leaves, history, deletion). It decodes every JSON
response with a schema and reports each failure as one `PlexApiError` value. The model
also covers the live test script's `.env` loader and the configuration it derives.

Files:

- `wrappers.dfy`: `Option` and `Result`.
- `text.dfy`: the JavaScript string built-ins the code relies on: `trim` (ECMAScript
  whitespace), `indexOf`, `split` on one character, and `${n}` for integral numbers.
- `json.dfy`: a parsed JSON value and the field rules of Effect's `Schema` that the
  response shapes use. These are required, nullable, defaulted, `as: "Option"`, arrays
  and nested records. Each rule is a predicate (what the declaration allows) plus a
  decoder proved to agree with it.
- `plex_tv.dfy`, `plex_server.dfy`: every response shape of both hosts. Each shape `X`
  has a predicate `IsX(j, v)` ("payload `j` decodes to `v`") and a decoder `DecodeX`. Its
  contract says two things. A result it returns is one the declaration allows. It fails
  only when no value is allowed, so a partial value is never returned.
- `errors.dfy`: `PlexApiError`, its well-formedness (either status and body, or a cause)
  and its `message` getter.
- `config.dfy`: the client configuration record.
- `plex_client.dfy`: the three executors (`requestPlexTv`, `requestServer`,
  `requestServerVoid`) and the thirteen-entry operation table of `PlexClientLive`. The HTTP
  transport is not modelled. Its answer is an input value (`Outcome`: no response, or a
  status and a body), so an executor is a function from that answer to the request it
  sent and the result it gives.
- `test_live.dfy`: the script's `.env` loop, written as a class `ProcessEnv` whose map field
  the loop updates in place, proved against a fold over the file's lines. It also holds
  the script's configuration rules and `formatOption`.

The void executor sends only `DELETE` as `DELETE` and turns every other method into
`GET`. Its error still names the method it was asked for. No operation of the table calls
it with anything but `DELETE`, so this cannot be observed today.
`VoidExecutorSendsPostAsGet` states it.

## Model

| member | source | states |
|---|---|---|
| Text.NatToDecimal | libs/plex-client/src/plex-client.ts:179 | `${n}` of a non-negative number is a non-empty run of digits, with no leading zero except `"0"` itself |
| Text.DecimalRoundTrip | libs/plex-client/src/plex-client.ts:179 | reading the rendered digits back gives the number |
| Text.IntToDecimal | libs/plex-client/src/plex-client.ts:252 | `${i}` of an integer starts with a minus sign exactly when it is negative, and the rest is digits |
| Text.IntDecimalRoundTrip | libs/plex-client/src/plex-client.ts:252 | `${i}` of any integer, negative included, reads back to `i` |
| Text.IntToDecimalInjective | libs/plex-client/src/plex-client.ts:179 | distinct numbers render to distinct strings |
| Text.Trim | libs/plex-client/scripts/test-live.ts:11 | the trimmed string neither starts nor ends with whitespace |
| Text.TrimEmpty | libs/plex-client/scripts/test-live.ts:12 | a line trims to the empty string exactly when it is all whitespace |
| Text.TrimIsSlice | libs/plex-client/scripts/test-live.ts:11 | the trimmed string is a slice of the input, and only whitespace is cut on either side |
| Text.TrimOfTrimmed | libs/plex-client/scripts/test-live.ts:15-16 | a string with no whitespace at either end is its own trim |
| Text.TrimPadded | libs/plex-client/scripts/test-live.ts:15-16 | trimming removes exactly the whitespace padding around a trimmed string |
| Text.TrimIdempotent | libs/plex-client/scripts/test-live.ts:15-16 | trimming twice is trimming once |
| Text.IndexOf | libs/plex-client/scripts/test-live.ts:13 | the first position of the character, or -1 exactly when it does not occur |
| Text.IndexOfFirst | libs/plex-client/scripts/test-live.ts:13 | when the prefix holds no `c`, the first `c` is the one right after the prefix |
| Text.Split | libs/plex-client/scripts/test-live.ts:10 | `split("\n")` gives at least one piece, no piece holds a newline, and joining the pieces with newlines gives back the text |
| Json.AsString | libs/plex-client/src/schemas/plex-tv.ts:10 | `Schema.String` accepts exactly a JSON string and returns its text |
| Json.AsNumber | libs/plex-client/src/schemas/plex-tv.ts:9 | `Schema.Number` accepts exactly a JSON number and returns it |
| Json.AsBoolean | libs/plex-client/src/schemas/plex-tv.ts:41 | `Schema.Boolean` accepts exactly a JSON boolean and returns it |
| Json.AsStringOrNull | libs/plex-client/src/schemas/plex-tv.ts:11 | `Schema.NullOr(Schema.String)` accepts exactly `null` (as `None`) or a string (as `Some`) |
| Json.Field | libs/plex-client/src/schemas/plex-tv.ts:8-14 | a required key succeeds exactly when present and its value decodes; failures name the key first in their path |
| Json.RequiredString | libs/plex-client/src/schemas/plex-tv.ts:10 | succeeds with the key's string, and fails only when the key is missing or not a string |
| Json.RequiredNumber | libs/plex-client/src/schemas/plex-tv.ts:9 | succeeds with the key's number, and fails only when the key is missing or not a number |
| Json.RequiredBoolean | libs/plex-client/src/schemas/plex-tv.ts:41-42 | succeeds with the key's boolean, and fails only when the key is missing or not a boolean |
| Json.RequiredStringOrNull | libs/plex-client/src/schemas/plex-tv.ts:11 | the key must be present and hold `null` or a string |
| Json.DefaultString | libs/plex-client/src/schemas/plex-server.ts:34 | a missing key gives `""`, a string gives itself, and anything else fails |
| Json.OptionString | libs/plex-client/src/schemas/plex-server.ts:102 | a missing key gives `None`, a string `s` gives `Some(s)`, and anything else fails |
| Json.OptionNumber | libs/plex-client/src/schemas/plex-server.ts:36 | a missing key gives `None`, a number `n` gives `Some(n)`, and anything else fails |
| Json.DecodeItems | libs/plex-client/src/schemas/plex-tv.ts:53 | succeeds exactly when every element decodes, giving the elements in order; on failure the error is some failing element's error, tagged with its index |
| Json.AsArray | libs/plex-client/src/schemas/plex-tv.ts:53 | `Schema.Array` accepts exactly an array whose every element decodes, giving the elements in order |
| Json.ArrayDecodes | libs/plex-client/src/schemas/plex-tv.ts:50 | an element decoder that agrees with its declaration lifts to arrays |
| Json.RequiredArray | libs/plex-client/src/schemas/plex-tv.ts:50 | a required array field matches its declaration, and fails only when no list matches |
| Json.DefaultArray | libs/plex-client/src/schemas/plex-server.ts:21 | a missing array field gives `[]`, and a present one must be an array of valid elements |
| Json.RequiredRecord | libs/plex-client/src/schemas/plex-server.ts:19-22 | a nested `MediaContainer` record is required and decoded by its own schema |
| Json.AsObject | libs/plex-client/src/schemas/plex-tv.ts:8 | a record schema accepts only a JSON object |
| Json.EachFunctional | libs/plex-client/src/schemas/plex-tv.ts:53 | arrays of a single-valued element rule are single-valued |
| Json.ArrayOrEmptyFunctional | libs/plex-client/src/schemas/plex-server.ts:21 | a defaulted array field of a single-valued rule is single-valued |
| Json.RulesAreFunctional | libs/plex-client/src/schemas/plex-server.ts:29-43 | every field rule allows at most one decoded value per payload |
| Json.OptionKeepsFalsyValues | libs/plex-client/src/schemas/plex-server.ts:36 | an Option field keeps a present `0` or `""` as `Some`, never `None` |
| Json.MissingKeyRules | libs/plex-client/src/schemas/plex-server.ts:29-43 | a missing key gives `""`, `[]` or `None` for defaulted and Option fields, and a `MissingKey` error naming the key for required ones |
| Json.NullOnlyWhereNullable | libs/plex-client/src/schemas/plex-tv.ts:11 | `null` is a value only for a `NullOr` field; required, defaulted and Option fields reject it |
| PlexTv.DecodePin | libs/plex-client/src/schemas/plex-tv.ts:8-14 | the decoded PIN is the one the declaration allows, and decoding fails only when none exists |
| PlexTv.DecodeUser | libs/plex-client/src/schemas/plex-tv.ts:20-28 | the decoded user is the one the declaration allows, and decoding fails only when none exists |
| PlexTv.DecodeResourceConnection | libs/plex-client/src/schemas/plex-tv.ts:34-43 | the decoded connection is the one the declaration allows, and decoding fails only when none exists |
| PlexTv.DecodeResource | libs/plex-client/src/schemas/plex-tv.ts:45-51 | the decoded resource, with every connection, is the one the declaration allows, and decoding fails only when none exists |
| PlexTv.DecodeResources | libs/plex-client/src/schemas/plex-tv.ts:53 | the body is a bare array of resources, decoded element by element or not at all |
| PlexTv.DecodeFriend | libs/plex-client/src/schemas/plex-tv.ts:59-66 | the decoded friend is the one the declaration allows, and decoding fails only when none exists |
| PlexTv.DecodeFriends | libs/plex-client/src/schemas/plex-tv.ts:68 | the body is a bare array of friends, decoded element by element or not at all |
| PlexTv.DecodeHomeUser | libs/plex-client/src/schemas/plex-tv.ts:74-82 | the decoded home user is the one the declaration allows, and decoding fails only when none exists |
| PlexTv.DecodeHomeUsersResponse | libs/plex-client/src/schemas/plex-tv.ts:84-88 | the body is an object with a required `users` array, decoded in full or not at all |
| PlexTv.PinAuthTokenNullable | libs/plex-client/src/schemas/plex-tv.ts:11 | a PIN's `authToken` must be present; `null` decodes to `None` and a string to `Some`, and anything else fails |
| PlexTv.PinRequiredFields | libs/plex-client/src/schemas/plex-tv.ts:9-13 | `id` must be a number and `code`, `expiresAt`, `clientIdentifier` strings, or the PIN fails |
| PlexTv.ResourceFieldRules | libs/plex-client/src/schemas/plex-tv.ts:49-50 | `connections` is required and must be an array; a null `accessToken` is `None` |
| PlexTv.ConnectionTypes | libs/plex-client/src/schemas/plex-tv.ts:39-42 | `port` must be a number and `local`/`relay` booleans, or the connection fails |
| PlexTv.OneBadElementFailsArray | libs/plex-client/src/schemas/plex-tv.ts:53 | one bad element, or a body that is not an array, fails the whole resources or friends response |
| PlexTv.HomeUsersRequiresUsers | libs/plex-client/src/schemas/plex-tv.ts:87 | a home-users body without an object holding a `users` array fails |
| PlexTv.UserRequiredFields | libs/plex-client/src/schemas/plex-tv.ts:20-28 | every field of a user is required with its type; a home user also needs boolean `admin` and `restricted` |
| PlexTv.RecordShapesFunctional | libs/plex-client/src/schemas/plex-tv.ts:8-82 | the PIN, user, connection, friend and home-user shapes each allow at most one value per payload |
| PlexTv.ResourceFunctional | libs/plex-client/src/schemas/plex-tv.ts:45-51 | a resource payload, connections included, allows at most one value |
| PlexTv.ResponsesFunctional | libs/plex-client/src/schemas/plex-tv.ts:53-88 | the resources and friends arrays and the home-users body each allow at most one value per payload |
| PlexServer.DecodeLibrarySection | libs/plex-client/src/schemas/plex-server.ts:7-14 | the decoded section is the one the declaration allows, and decoding fails only when none exists |
| PlexServer.DecodeSectionsContainer | libs/plex-client/src/schemas/plex-server.ts:19-22 | `size` is required, and `Directory` defaults to no sections |
| PlexServer.DecodeLibrarySectionsResponse | libs/plex-client/src/schemas/plex-server.ts:16-23 | the sections body is exactly what the declaration allows, or a failure when nothing is |
| PlexServer.DecodeMediaItem | libs/plex-client/src/schemas/plex-server.ts:29-43 | the decoded media item, with its defaults and Options, is the one the declaration allows, and decoding fails only when none exists |
| PlexServer.DecodeItemsContainer | libs/plex-client/src/schemas/plex-server.ts:48-52 | `size` is required, `librarySectionID` is an Option and `Metadata` defaults to no items |
| PlexServer.DecodeLibraryItemsResponse | libs/plex-client/src/schemas/plex-server.ts:45-53 | the library-items body is exactly what the declaration allows, or a failure when nothing is |
| PlexServer.DecodeMetadataContainer | libs/plex-client/src/schemas/plex-server.ts:62-65 | `size` is required, and `Metadata` defaults to no items |
| PlexServer.DecodeMetadataResponse | libs/plex-client/src/schemas/plex-server.ts:59-66 | the metadata body is exactly what the declaration allows, or a failure when nothing is |
| PlexServer.DecodeChildItem | libs/plex-client/src/schemas/plex-server.ts:72-82 | the decoded child item is the one the declaration allows, and decoding fails only when none exists |
| PlexServer.DecodeChildrenContainer | libs/plex-client/src/schemas/plex-server.ts:87-90 | `size` is required, and `Metadata` defaults to no children |
| PlexServer.DecodeChildrenResponse | libs/plex-client/src/schemas/plex-server.ts:84-91 | the children body is exactly what the declaration allows, or a failure when nothing is |
| PlexServer.DecodeLeafItem | libs/plex-client/src/schemas/plex-server.ts:97-110 | the decoded leaf item is the one the declaration allows, and decoding fails only when none exists |
| PlexServer.DecodeLeavesContainer | libs/plex-client/src/schemas/plex-server.ts:113-116 | `size` is required, and `Metadata` defaults to no leaves |
| PlexServer.DecodeLeavesResponse | libs/plex-client/src/schemas/plex-server.ts:112-117 | the leaves body is exactly what the declaration allows, or a failure when nothing is |
| PlexServer.DecodeHistoryItem | libs/plex-client/src/schemas/plex-server.ts:123-132 | the decoded history item is the one the declaration allows, and decoding fails only when none exists |
| PlexServer.DecodeHistoryContainer | libs/plex-client/src/schemas/plex-server.ts:135-138 | `size` is required, and `Metadata` defaults to no entries |
| PlexServer.DecodeHistoryResponse | libs/plex-client/src/schemas/plex-server.ts:134-139 | the history body is exactly what the declaration allows, or a failure when nothing is |
| PlexServer.ItemShapesFunctional | libs/plex-client/src/schemas/plex-server.ts:29-43 | each item declaration allows at most one value per payload |
| PlexServer.SectionsResponseFunctional | libs/plex-client/src/schemas/plex-server.ts:16-23 | a sections payload allows at most one response value |
| PlexServer.LibraryItemsResponseFunctional | libs/plex-client/src/schemas/plex-server.ts:45-53 | a library-items payload allows at most one response value |
| PlexServer.MetadataResponseFunctional | libs/plex-client/src/schemas/plex-server.ts:59-66 | a metadata payload allows at most one response value |
| PlexServer.ChildrenResponseFunctional | libs/plex-client/src/schemas/plex-server.ts:84-91 | a children payload allows at most one response value |
| PlexServer.LeavesResponseFunctional | libs/plex-client/src/schemas/plex-server.ts:112-117 | a leaves payload allows at most one response value |
| PlexServer.HistoryResponseFunctional | libs/plex-client/src/schemas/plex-server.ts:134-139 | a history payload allows at most one response value |
| PlexServer.MissingDirectoryIsEmpty | libs/plex-client/src/schemas/plex-server.ts:21 | an envelope without `Directory` decodes to no sections |
| PlexServer.MissingMetadataIsEmpty | libs/plex-client/src/schemas/plex-server.ts:50-51 | an envelope without `Metadata` decodes to no items in every container that has one, whatever else it carries; the library-items container keeps a numeric `librarySectionID`, gives `None` without one, and fails on any other value |
| PlexServer.SizeRequired | libs/plex-client/src/schemas/plex-server.ts:20 | without a numeric `size`, every server response fails |
| PlexServer.MediaItemNormalisation | libs/plex-client/src/schemas/plex-server.ts:34-42 | absent `thumb`/`summary` become `""` and absent numeric Options `None`; present values are kept |
| PlexServer.OptionFieldsKeepFalsyValues | libs/plex-client/src/schemas/plex-server.ts:36 | `year: 0` decodes to `Some(0)` and `parentRatingKey: ""` to `Some("")`, both distinct from an absent key |
| PlexServer.ItemRequiredFields | libs/plex-client/src/schemas/plex-server.ts:30-40 | `ratingKey`, `key`, `type`, `title` are required strings in every item shape, and `addedAt` a required number in media, child and leaf items |
| PlexServer.LibrarySectionRequiresAll | libs/plex-client/src/schemas/plex-server.ts:8-13 | a section missing any of its six strings fails |
| PlexServer.HistoryItemRules | libs/plex-client/src/schemas/plex-server.ts:128-131 | `accountID` and `viewedAt` are required numbers; absent parent keys are `None` |
| PlexServer.OneBadItemFailsResponse | libs/plex-client/src/schemas/plex-server.ts:51-137 | one item its shape rejects fails the whole response, in the library-items, metadata, children, leaves and history containers alike |
| PlexServer.SectionsExample | libs/plex-client/src/schemas/plex-server.ts:16-23 | a one-section envelope decodes to that one section |
| Errors.Kind | libs/plex-client/src/errors.ts:7-11 | a well-formed error is a status failure exactly when it has a status, and a transport failure exactly when its cause is a request error |
| Errors.WellFormed | libs/plex-client/src/errors.ts:7-11 | the shape every error the executors build has: either a status and a body, or a cause, never both |
| Errors.Message | libs/plex-client/src/errors.ts:15-18 | the message starts with `PlexApiError: <method> <path>`, and has nothing more exactly when the status is absent or zero |
| Errors.MessageHead | libs/plex-client/src/errors.ts:17 | `PlexApiError: <method> <path>`, the part of the message always present; `Message` states it is a prefix |
| Errors.StatusSuffix | libs/plex-client/src/errors.ts:16 | empty exactly when the status is absent or zero; otherwise ` (`, the status in decimal, and `)` |
| Errors.MessageStatusRoundTrip | libs/plex-client/src/errors.ts:16 | the status can be read back from the message, except a zero status, which is falsy and omitted |
| PlexClient.PlexHeaders | libs/plex-client/src/plex-client.ts:64-69 | the four headers, in order: `Accept: application/json`, the token, the client identifier, the product |
| PlexClient.WrapError | libs/plex-client/src/plex-client.ts:71-73 | a wrapped failure carries the method, the path and the cause, and no status or body |
| PlexClient.ErrorBodyText | libs/plex-client/src/plex-client.ts:97 | the response text when the body can be read, `""` when reading it fails |
| PlexClient.Receive | libs/plex-client/src/plex-client.ts:92-103 | no response gives a request-error cause; a status of 400 or more gives the status and the body text (`""` if unreadable); below 400 it succeeds exactly when the body is JSON that decodes; every error is well-formed and names the method and path |
| PlexClient.RequestPlexTv | libs/plex-client/src/plex-client.ts:75-104 | sends the method to `https://plex.tv` followed by the path, with the Plex headers, and classifies the answer as `Receive` does |
| PlexClient.RequestServer | libs/plex-client/src/plex-client.ts:106-135 | sends the method to the server URL followed by the path, with the Plex headers, and classifies the answer as `Receive` does |
| PlexClient.RequestServerVoid | libs/plex-client/src/plex-client.ts:137-157 | sends DELETE as DELETE and anything else as GET; succeeds exactly on a response below 400, whatever its body; otherwise fails as the valued executors do |
| PlexClient.DecodeAs | libs/plex-client/src/plex-client.ts:170-259 | an operation's schema decoder returns only values the schema allows, and fails only when there is none |
| PlexClient.OperationFor | libs/plex-client/src/plex-client.ts:169-264 | the operation table, one (method, executor, path) per call; `OperationTable`, `OperationSchemas`, `HistoryQuery` and `ExecuteRequest` state its bindings |
| PlexClient.Execute | libs/plex-client/src/plex-client.ts:169-264 | runs an operation through its executor with its schema; `ExecuteRequest`, `ExecuteFailure` and `ExecuteSuccess` state what it sends and returns |
| PlexClient.Invoke | libs/plex-client/src/plex-client.ts:169-264 | one client call: the table entry for the call, executed against the transport's answer |
| PlexClient.OperationTable | libs/plex-client/src/plex-client.ts:169-264 | the six account operations go to plex.tv and the rest to the server; only `createPin` posts; only `deleteItem` uses the void executor, with DELETE |
| PlexClient.OperationSchemas | libs/plex-client/src/plex-client.ts:169-264 | `createPin` and `checkPin` decode with the pin schema, and every other valued call with the schema of its own response type |
| PlexClient.ExecuteRequest | libs/plex-client/src/plex-client.ts:83-90 | every operation's request is the host base followed by the path with no separator added, with the four Plex headers |
| PlexClient.ExecuteFailure | libs/plex-client/src/plex-client.ts:92-99 | failures are well-formed and name the operation's method and its path (never the URL); no response gives a request-error cause; an error status gives the status and the text |
| PlexClient.ExecuteSuccess | libs/plex-client/src/plex-client.ts:101-103 | a valued operation succeeds exactly when the status is below 400, the body is JSON and the schema maps it to a value, and that value is the result; a body the schema rejects is a decode failure |
| PlexClient.DeleteIgnoresBody | libs/plex-client/src/plex-client.ts:262-263 | `deleteItem` succeeds on any status below 400 whatever the body, sent as DELETE to the item's URL |
| PlexClient.VoidExecutorSendsPostAsGet | libs/plex-client/src/plex-client.ts:145-147 | the void executor asked for POST sends GET, while its error still reports POST |
| PlexClient.HistoryParams | libs/plex-client/src/plex-client.ts:252 | the query is empty exactly when no bound is given; otherwise `?mindate=` followed by a decimal that reads back as the bound |
| PlexClient.ZeroMinDateParams | libs/plex-client/src/plex-client.ts:252 | a zero bound gives `?mindate=0`, not an empty query |
| PlexClient.HistoryQuery | libs/plex-client/src/plex-client.ts:251-260 | without a bound the history path has no query; any bound, zero included, is sent as `?mindate=<n>` |
| PlexClient.CheckPinPathInjective | libs/plex-client/src/plex-client.ts:178-179 | different PIN ids are checked at different paths |
| PlexClient.RatingKeyNotEscaped | libs/plex-client/src/plex-client.ts:224-240 | path arguments are not escaped: a rating key ending in `/children` makes `getMetadata` send what `getChildren` sends |
| PlexClient.DeleteNotFoundExample | libs/plex-client/src/plex-client.ts:153-156 | deleting item `42` on a 404 "Not Found" fails with method DELETE, path `/library/metadata/42`, status 404 and that text |
| TestLive.ParseLine | libs/plex-client/scripts/test-live.ts:11-16 | what one line assigns, if anything; `ParseLineMeaning` and `ParseAssignment` state its meaning |
| TestLive.ParseLineMeaning | libs/plex-client/scripts/test-live.ts:11-16 | a line assigns nothing exactly when, trimmed, it is empty, starts with `#` or has no `=`; otherwise it splits at the first `=` and trims both sides |
| TestLive.MayWrite | libs/plex-client/scripts/test-live.ts:17 | a variable may be set when it is absent or holds the empty string |
| TestLive.SetUnlessSet | libs/plex-client/scripts/test-live.ts:17-19 | the key is present afterwards, holding the new value exactly when it was writable and its old value otherwise; every other variable is unchanged and none is added |
| TestLive.ApplyLine | libs/plex-client/scripts/test-live.ts:11-19 | the environment after one line: its assignment, if any, applied by `SetUnlessSet` |
| TestLive.ApplyLines | libs/plex-client/scripts/test-live.ts:10-20 | the environment after the lines in order; the loader lemmas below state its properties |
| TestLive.LoadedEnv | libs/plex-client/scripts/test-live.ts:8-23 | the environment after loading the file split at newlines, or unchanged when it cannot be read |
| TestLive.ParsedLineSets | libs/plex-client/scripts/test-live.ts:17-19 | an assignment line sets its key unless the key already holds a non-empty value |
| TestLive.ProcessEnv.LoadDotEnv | libs/plex-client/scripts/test-live.ts:8-23 | the environment after the loop is the fold of the file's lines over the old one, and an unreadable file leaves it unchanged |
| TestLive.ProcessEnv.ApplyDotEnvLine | libs/plex-client/scripts/test-live.ts:11-19 | one pass of the loop changes the environment exactly as the line's assignment says |
| TestLive.SkippedLineLeavesEnv | libs/plex-client/scripts/test-live.ts:11-14 | blank lines, comments and lines without `=` leave the environment unchanged |
| TestLive.ParseAssignment | libs/plex-client/scripts/test-live.ts:13-16 | `key = value` with any whitespace around the line and the first `=` reads back as that key and value, and the value may hold further `=` |
| TestLive.Parsed | libs/plex-client/scripts/test-live.ts:10 | one parse per line, in order |
| TestLive.ApplyLinesParsed | libs/plex-client/scripts/test-live.ts:10-20 | reading the lines one by one is parsing them all and applying the assignments in order |
| TestLive.NonEmptyEntryKept | libs/plex-client/scripts/test-live.ts:17 | a variable holding a non-empty value is never overwritten |
| TestLive.UnmentionedKeyUnchanged | libs/plex-client/scripts/test-live.ts:17-19 | a variable no line assigns keeps its presence and value |
| TestLive.StaysWritable | libs/plex-client/scripts/test-live.ts:17 | assigning only empty strings keeps a variable writable |
| TestLive.FirstNonEmptyAssignmentWins | libs/plex-client/scripts/test-live.ts:17-19 | for a variable unset or empty at the start, the first non-empty assignment is the final value |
| TestLive.NewKeysAreAssigned | libs/plex-client/scripts/test-live.ts:17-19 | every variable that appears was assigned by some line |
| TestLive.DotEnvNeverOverrides | libs/plex-client/scripts/test-live.ts:8-23 | loading `.env` never changes a variable already set to a non-empty value |
| TestLive.DotEnvLeavesUnmentioned | libs/plex-client/scripts/test-live.ts:8-23 | variables no line of `.env` assigns, and everything when there is no file, are left as they were |
| TestLive.DotEnvFirstAssignmentWins | libs/plex-client/scripts/test-live.ts:10-20 | in the file, the first line giving an unset or empty variable a non-empty value decides it |
| TestLive.ScriptConfig | libs/plex-client/scripts/test-live.ts:25-40 | configuration succeeds exactly when token and server URL are both non-empty, otherwise the missing-variables message; the identifier falls back to `plaxe-test-script` only when absent, and an empty one is kept; the product is `Plaxe Test Script` |
| TestLive.EnvironmentBeatsDotEnv | libs/plex-client/scripts/test-live.ts:17-33 | token and server URL already set in the environment are the ones configured, whatever `.env` holds |
| TestLive.FormatOption | libs/plex-client/scripts/test-live.ts:47 | a present value is shown as itself and an absent one as `(none)` |
| TestLive.FormatOptionInjective | libs/plex-client/scripts/test-live.ts:47 | the output tells options apart when the rendering is injective and never prints `(none)` |
| TestLive.FormatOptionAmbiguous | libs/plex-client/scripts/test-live.ts:47 | a present `"(none)"` prints exactly as an absent value does |

## Left out

- The HTTP transport, the Effect runtime, its `Layer`/`Context` wiring and the `HttpClient`
  are not modelled. The transport's answer is an input (`Outcome`), and reading and parsing
  the body is part of that input (`Body`).
- JSON text parsing is not modelled. A body is either readable text with an optional parsed
  value or unreadable. The reason text `"body is not valid JSON"` is the model's own
  wording, not the library's.
- JSON numbers are integers. Floating point, exponents and their rendering by `${n}` are
  not modelled, because every numeric field is a count, an id or a timestamp.
- Extra keys in a payload are accepted and ignored, as `Schema.Struct` does. The error
  structure of Effect's `ParseError` (which field is reported first, message text) follows
  declaration order here and is not the library's exact output.
- Header names are kept as written. Their normalisation by the HTTP client is not modelled.
- `libs/plex-client/src/config.ts`: only its record shape is used. Its environment loading
  through Effect `Config` is not modelled.
- TestLive.MayWrite: the environment is a plain map of own variables. Node's
  `key in process.env` also finds names inherited from `Object.prototype` (`toString`,
  `constructor`, `valueOf`, `hasOwnProperty`, `__proto__`), so a `.env` line such as
  `toString=x` is skipped by the script but written by the model. On Windows, variable names
  are case-insensitive, so `plex_token=abc` is skipped there when `PLEX_TOKEN` is set, while
  the model adds a separate key. Neither behaviour is modelled.
- The rest of `test-live.ts` (console output against a live server) is not modelled. Its
  line 139 reads history `ratingKey`/`title` as Options, but the schema declares plain
  strings, and the model follows the schema.
- `process.exit(1)` and the console messages of the missing-variable check are not
  modelled. The check's outcome is an `Err` carrying the first message.
- The health service, the API contracts and the web app of the repository are outside
  this library and are not modelled.
