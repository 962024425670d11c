# Home Assistant Supervisor client — a verified model

This project models the parts of the `python-supervisor-client` libraries
(`aiosupervisor` and `aiohasupervisor`) that make decisions. The rest of
those libraries only maps one method to one endpoint.

- **Requests and responses.** The `_SupervisorClient` transport builds the
  `Accept` and `Authorization` headers. It maps an HTTP error status to a
  typed `SupervisorError` and dispatches on the response kind the caller
  expects (`NONE`, `JSON` or `TEXT`). It reclassifies transport exceptions
  in the order of its `except` clauses.
  The status values are those of sections 15.5.1 (400), 15.5.2 (401),
  15.5.4 (403), 15.5.5 (404) and 15.6.4 (503) of RFC 9110. The bearer token
  follows section 2.1 of RFC 6750.
- **Session ownership.** A client either adopts the caller's session or
  creates its own on the first request. `close` closes only a session the
  client created.
- **Errors.** The `SupervisorError` hierarchy, its `job_id`, and the exact
  messages of the three add-on-not-supported errors.
- **Backups.** The backup enums. The shared base fields of the backup
  records, partial options as full options plus content fields, and the
  omit-sentinel defaults. The "at least one of
  addons, folders or homeassistant" rule of partial backups and restores.
- **Resolution center and jobs.** The enum tables and the forward-compatible
  `Enum | str` fields: unknown wire strings are kept, not rejected. The
  strict `context` and `JobsOptions` fields. The recursive `Job` tree.
- **The store client.** Each store call's verb, path, expected response
  kind and body. The timeout-disabling rule of install and update, and how
  each result is read.

The HTTP exchange is an input value (`Client.Outcome`). It is either a
received response (status, Content-Type, body) or a transport failure.
A failure is described by the set of exception classes the raised object
is an instance of, so the first matching `except` clause decides.
Everything is pure functions over datatypes, except in two places:

- `Client.SupervisorClient` is a class. Its two fields, `session` and
  `closeSession`, are updated in place by `Request` and read by `Close`.
- `Store.TimeoutKwargs` builds the keyword map step by step, as
  `install_addon` and `update_addon` do.

Modules: `Wrappers` (Option, Result), `Json` (a JSON value), `Strings`
(substring search and decimal formatting), `EnumCodec` (lenient and strict
enum decoding), `Const`, `Exceptions`, `Client`, `Backups`, `Resolution`,
`Jobs`, `Store`.

Notes on what the `aiosupervisor` transport and the store client do:

- **Error keys.** The `aiosupervisor` transport does not map the service's
  `error_key` to the add-on error classes. It raises only status classes,
  the generic class and the three transport classes (`Client.RaisedKinds`).
- **Path traversal.** There is no path-traversal check in that transport.
- **Doc-comment class names.** The doc comment of `addon_availability`
  (aiohasupervisor/store.py:54-57) names `AddonUnavailable*Error`
  classes. aiohasupervisor/exceptions.py defines
  `AddonNotSupported*Error` instead, and the model uses those.
- **Store timeout keyword.** The store client passes a `timeout` keyword
  that the shown `aiosupervisor` `post` does not accept. The store calls go
  through aiohasupervisor/client.py, which is not part of this model, so
  the timeout override is kept next to the transport call
  (`Store.StoreCall`) rather than inside it.

## Model

| member | source | states |
|---|---|---|
| Const.ResponseTypeValues | aiosupervisor/const.py:6-11 | The three response kinds have the distinct values `none`, `json` and `text`, and each value parses back to its kind |
| Strings.Contains | aiosupervisor/client.py:38 | The substring test is true exactly when the pattern occurs at some position |
| Strings.DecimalRoundTrip | aiosupervisor/client.py:41 | The decimal text of a status parses back to the status |
| Client.IsJson | aiosupervisor/client.py:35-44 | True exactly when `application/json` occurs in the Content-Type; a missing header counts as empty and gives false |
| Client.CheckJson | aiosupervisor/client.py:35-44 | With `raise_on_fail`, a non-JSON type raises a generic error with no job id whose message is the not-JSON text; otherwise the result is `is_json` |
| Client.NotJsonMessageMentions | aiosupervisor/client.py:40-42 | The not-JSON message contains the status in decimal and the received Content-Type |
| Client.AcceptHeaderSpec | aiosupervisor/client.py:75-79 | Only TEXT calls leave `application/json` out of Accept; every call accepts `text/plain` and ends with `*/*` |
| Client.Headers | aiosupervisor/client.py:81-85 | Exactly User-Agent `AioSupervisor/{version}`, the Accept for the kind, and Authorization `Bearer {token}` |
| Client.BearerTokenRecoverable | aiosupervisor/client.py:84 | The token is recovered from the Authorization header, so different tokens give different headers |
| Client.StatusErrorKind | aiosupervisor/client.py:101-113 | 400, 401, 403, 404 and 503 select BadRequest, Authentication, Forbidden, NotFound and ServiceUnavailable; any other status the generic class |
| Client.StatusKindInverse | aiosupervisor/client.py:101-113 | A status-specific class is selected only by its own status |
| Client.ErrorStatusAlwaysRaises | aiosupervisor/client.py:101-118 | A status of 400 or more never returns a result, whatever the kind and the body |
| Client.OkOnlyBelow400 | aiosupervisor/client.py:101-127 | A normal return means a response arrived with a status below 400 |
| Client.ErrorEnvelopeCarried | aiosupervisor/client.py:115-117 | An error status with a JSON body raises the status's class with the envelope's message and job id |
| Client.ErrorWithoutJson | aiosupervisor/client.py:115-118 | An error status with a non-JSON body raises the status's class with no arguments and no job id |
| Client.JsonSuccess | aiosupervisor/client.py:121-123 | A JSON call fails with the generic not-JSON error on a non-JSON type, and otherwise returns the decoded envelope |
| Client.TextSuccess | aiosupervisor/client.py:124-125 | A TEXT call returns an OK envelope whose data is the body text unchanged |
| Client.EmptySuccess | aiosupervisor/client.py:126-127 | Any other call returns an empty OK envelope without reading the body |
| Client.TransportFailureReclassified | aiosupervisor/client.py:129-138 | Decoding and response errors become ResponseError, then timeouts Timeout, then client errors Connection, each with its fixed message; any other exception propagates unchanged (each an if-and-only-if) |
| Client.RaisedKinds | aiosupervisor/client.py:101-138 | The transport raises only the status classes, the generic class and the three transport classes, never an add-on error |
| Client.ErrorKindDeterminesStatus | aiosupervisor/client.py:101-113 | A status-specific error means a response arrived with exactly that status |
| Client.CallDefaults | aiosupervisor/client.py:140-190 | `get` expects JSON and `post` nothing unless told otherwise; `put` and `delete` always expect nothing; `get` and `delete` send no body, `put` no raw data |
| Client.Dispatched | aiosupervisor/client.py:92-99 | The request carries the call's verb, path, parameters and body, the headers for its kind, and the client's timeout |
| Client.SupervisorClient.constructor | aiosupervisor/client.py:51-55 | The client keeps its host, token and timeout, adopts the caller's session if any, and owns none yet |
| Client.SupervisorClient.Request | aiosupervisor/client.py:62-138 | Creates and owns an open session if there is none, otherwise leaves session and ownership alone; sends the dispatched request and returns the classified result |
| Client.SupervisorClient.GetRequest | aiosupervisor/client.py:140-148 | A GET with default kind JSON, classified as its kind |
| Client.SupervisorClient.PostRequest | aiosupervisor/client.py:150-167 | A POST with default kind NONE, classified as its kind |
| Client.SupervisorClient.PutRequest | aiosupervisor/client.py:169-179 | A PUT that always expects nothing |
| Client.SupervisorClient.DeleteRequest | aiosupervisor/client.py:181-190 | A DELETE that always expects nothing and carries no body |
| Client.SupervisorClient.Close | aiosupervisor/client.py:192-195 | Closes the session only if there is one and the client owns it; otherwise modifies nothing |
| Client.CallerSessionStaysOpen | aiosupervisor/client.py:87-89 | A session the caller supplied is still open after a request and `close` |
| Client.OwnedSessionClosed | aiosupervisor/client.py:192-195 | A session created by the first request is owned and is closed by `close` |
| Exceptions.NewError | aiohasupervisor/exceptions.py:7-14 | Stores the class and the job id (default None); no message gives no arguments, a message is the single argument |
| Exceptions.NewErrorRoundTrip | aiohasupervisor/exceptions.py:7-14 | The message and job id are recovered from the error, and its text is the message or empty |
| Exceptions.AllAreSupervisorErrors | aiohasupervisor/exceptions.py:17-90 | Every error class is a subclass of `SupervisorError` |
| Exceptions.Hierarchy | aiohasupervisor/exceptions.py:17-90 | Exactly the three add-on errors and `AddonNotSupportedError` are add-on errors; only BadRequest is a BadRequest; `AddonNotSupportedError` derives from `SupervisorError` directly; only Connection is a `ConnectionError` and only Timeout a `TimeoutError` |
| Exceptions.BuiltinBases | aiohasupervisor/exceptions.py:17-22 | Every error is an `Exception`; Connection and Timeout also have their built-in bases |
| Exceptions.ArchitectureError | aiohasupervisor/exceptions.py:53-64 | An add-on error, not a bad request, whose message is the architecture text and which forwards the job id |
| Exceptions.MachineTypeError | aiohasupervisor/exceptions.py:67-78 | An add-on error, not a bad request, whose message is the machine-type text and which forwards the job id |
| Exceptions.VersionError | aiohasupervisor/exceptions.py:81-90 | An add-on error, not a bad request, whose message is the version text and which forwards the job id |
| Exceptions.ArchitectureMessageInjective | aiohasupervisor/exceptions.py:60-63 | For add-on slugs without spaces, the architecture message determines the add-on and the architectures |
| Exceptions.AddonMessagesDistinct | aiohasupervisor/exceptions.py:53-90 | For add-on slugs without spaces, messages of two different add-on error classes never coincide |
| Backups.BackupEnumCodecs | aiohasupervisor/models/backups.py:13-26 | The backup type and folder values are pairwise distinct and parse back to their members |
| Backups.FolderValues | aiohasupervisor/models/backups.py:20-26 | The folder values in order are `share`, `addons/local`, `ssl`, `media`, and they decode back in that order |
| Backups.RequestDefaults | aiohasupervisor/models/backups.py:137-147 | The location fields default to the omit sentinel, which is not null; every other optional request field defaults to null |
| Backups.PartialExtendsFull | aiohasupervisor/models/backups.py:121-154 | Partial backup options are exactly the three content fields plus an inherited `FullBackupOptions` record, and adding content fields to a full record and projecting back gives that record |
| Backups.PartialRestoreExtendsFull | aiohasupervisor/models/backups.py:171-181 | Partial restore options are exactly the three content fields plus the inherited `FullRestoreOptions` fields |
| Backups.ConstructedPartialIsFull | aiohasupervisor/models/backups.py:121-181 | A successfully constructed partial backup projects to `FullBackupOptions(name, password, compressed, location, ...)` built from the same arguments, and inherited fields left out default as a full backup's (and a full restore's) do |
| Backups.NewPartialBackupOptions | aiohasupervisor/models/backups.py:121-154 | Construction succeeds exactly when addons, folders or homeassistant is truthy (ALL counts, an empty set or False does not), keeping every field; otherwise it fails with the fixed ValueError |
| Backups.NewPartialRestoreOptions | aiohasupervisor/models/backups.py:171-181 | The same rule for partial restores, keeping every field on success |
| Backups.OnlyContentFieldsCount | aiohasupervisor/models/backups.py:129-134 | Name, password, compression, location, background and extra never change whether construction succeeds |
| Backups.ConstructionExamples | tests/test_backups.py:107-128 | Each content field alone suffices; a name alone, a background flag alone, or empty or false content fields fail with the fixed message |
| Resolution.SuggestionTypeCodec | aiohasupervisor/models/resolution.py:12-33 | The suggestion type values are pairwise distinct and each parses back to its member |
| Resolution.IssueTypeCodec | aiohasupervisor/models/resolution.py:36-67 | The same for issue types |
| Resolution.UnsupportedReasonCodec | aiohasupervisor/models/resolution.py:70-100 | The same for unsupported reasons |
| Resolution.UnhealthyReasonCodec | aiohasupervisor/models/resolution.py:103-117 | The same for unhealthy reasons |
| Resolution.ContextTypeCodec | aiohasupervisor/models/resolution.py:120-131 | The same for context types |
| Resolution.CheckTypeCodec | aiohasupervisor/models/resolution.py:134-154 | The same for check types |
| Resolution.DecodeSuggestion | aiohasupervisor/models/resolution.py:160-168 | Fails only when the context is unknown, with that context as the error; the type is kept raw when unknown; the other fields are copied |
| Resolution.DecodeIssue | aiohasupervisor/models/resolution.py:171-178 | Fails only on an unknown context; the type is lenient; the other fields are copied |
| Resolution.SuggestionRoundTrip | aiohasupervisor/models/resolution.py:160-168 | A decoded suggestion re-encodes to exactly what was received and is canonical; a canonical suggestion decodes back to itself |
| Resolution.IssueRoundTrip | aiohasupervisor/models/resolution.py:171-178 | The same two directions for issues |
| Resolution.CheckRoundTrip | aiohasupervisor/models/resolution.py:181-186 | Decoding a check never fails, and the same two directions hold |
| Resolution.DecodeAll | aiohasupervisor/models/resolution.py:189-203 | List decoding succeeds exactly when every element does, keeping length and order; a failure is some element's error |
| Resolution.DecodeResolutionInfo | aiohasupervisor/models/resolution.py:189-203 | Fails exactly when a suggestion or issue has an unknown context; otherwise every list is decoded element-wise in order |
| Resolution.ReasonListsPreserved | aiohasupervisor/models/resolution.py:196-203 | The unsupported and unhealthy lists re-encode to the received lists, raw entries and order included |
| Resolution.FixtureValues | tests/test_resolution.py:24-37 | The fixture's strings decode to the expected members, and `["supervisor"]` to the one unhealthy reason |
| Resolution.UnknownValuesKept | aiohasupervisor/models/resolution.py:12-18 | An unknown type or slug is kept as that raw string; an unknown context is rejected |
| Jobs.JobConditionCodec | aiohasupervisor/models/jobs.py:15-36 | The job condition values are pairwise distinct and each parses back to its member |
| Jobs.DescendantCompose | tests/test_jobs.py:36-39 | Following one child path and then another is following their concatenation |
| Jobs.DescendantListed | aiohasupervisor/models/jobs.py:62 | Every job reachable through child jobs appears in the tree's listing |
| Jobs.NestedDescendantListed | aiohasupervisor/models/jobs.py:62 | A job under a descendant is reached by the joined path and is listed both in that descendant's tree and in the whole tree |
| Jobs.FixtureNesting | tests/test_jobs.py:36-39 | In the fixture, the grandchild at path [0, 0] is the folder-save job for `ssl`, a leaf, third in pre-order |
| Jobs.LenientResponseStrictRequest | aiohasupervisor/models/jobs.py:65-79 | A response keeps every condition string in order, while the same strings form a request exactly when all are known conditions |
| Jobs.OptionsRoundTrip | aiohasupervisor/models/jobs.py:73-79 | A request's conditions go out and read back unchanged |
| Jobs.ConditionExamples | tests/test_jobs.py:24 | `free_space` decodes to FREE_SPACE; an unknown condition is kept on read and refused on request |
| Store.TimeoutOf | aiohasupervisor/store.py:76-79 | The timeout is disabled exactly when there are no options or they do not ask for background |
| Store.BodyOf | aiohasupervisor/store.py:83 | The body is the options' dictionary when options are given and absent otherwise |
| Store.TimeoutKwargs | aiohasupervisor/store.py:77-79 | The keyword map holds only `timeout`, set to None, and holds it exactly when the call waits for completion |
| Store.Install | aiohasupervisor/store.py:67-85 | Issues the install call: a POST expecting nothing, with the options' body and the timeout rule |
| Store.Update | aiohasupervisor/store.py:87-105 | Issues the update call with the same body and timeout rule |
| Store.ResponseKinds | aiohasupervisor/store.py:22-130 | Changelog and documentation expect TEXT; availability and the acting calls expect NONE; the rest JSON |
| Store.Verbs | aiohasupervisor/store.py:22-130 | Install, update, reload and add-repository are POSTs, remove-repository a DELETE, the rest GETs; none sends raw data or parameters |
| Store.Bodies | aiohasupervisor/store.py:81-126 | Only install and update send their options' body, only add-repository always sends one, and no other call has a body |
| Store.TimeoutRule | aiohasupervisor/store.py:76-105 | Only install and update override the timeout, and exactly when they wait for completion |
| Store.Paths | aiohasupervisor/store.py:32-130 | Add-on calls address `store/addons/{addon}` and below; install and update add `/install` and `/update`; repository calls address `store/repositories` |
| Store.TextCallsAcceptText | aiohasupervisor/store.py:37-49 | Changelog and documentation are sent with the text Accept header, add-on info with the JSON one |
| Store.TextReturnedUnchanged | aiohasupervisor/store.py:37-49 | Changelog and documentation return the received body text unchanged, and never anything but text |
| Store.AvailabilityResult | aiohasupervisor/store.py:51-65 | Availability returns nothing exactly when the status is below 400; a 400 with a readable or non-JSON body raises the bad-request class |
| Store.DecodeElements | aiohasupervisor/store.py:117 | Element-wise decoding succeeds exactly when every element does, keeping order; a failure names the first failing element |
| Store.Iterated | aiohasupervisor/store.py:117 | Iterating the data visits a list's elements, a string's characters and no element of an empty object; an object with keys yields its key set; null, numbers, booleans and absent data cannot be iterated |
| Store.RepositoriesFrom | aiohasupervisor/store.py:111-117 | What iterating the data visits is decoded element by element in order, succeeding exactly when every element decodes; data that cannot be iterated fails; a raised call is passed through |
| Store.RepositoriesEmptyData | aiohasupervisor/store.py:117 | An empty list, an empty object and an empty string give no repositories; `null` fails |

## Left out

- Network I/O, the session's real behaviour, wall-clock timeouts and URL joining are not modelled. The HTTP exchange is an input value, and host and path are kept apart in `Client.HttpRequest`.
- Using a session after it is closed is not modelled; requests never check `Session.closed`.
- The JSON codec is not modelled: `from_json`, `from_dict`, `to_dict`, the `Response` envelope codec and mashumaro. Its results are inputs: the parsed envelope, `AddonOptions.asDict`, and the `fromDict` parameter of `Store.RepositoriesFrom`. aiohasupervisor/models/base.py is not part of this model, and neither is its `Options` "at least one field" check.
- aiosupervisor/exceptions.py and aiosupervisor/models/base.py, the modules the `aiosupervisor` transport imports its error classes and its `Response` envelope from (aiosupervisor/client.py:19-30), are not part of this model. The error classes, their hierarchy and their `__init__(message=None, job_id=None)` are taken to match aiohasupervisor/exceptions.py:7-90. The envelope is taken to have `result` first and `data` second, as `Response(ResultType.OK, await response.text())` at aiosupervisor/client.py:124 requires; `Client.TextSuccess`, `Client.ErrorEnvelopeCarried`, `Client.NotJsonMessageMentions` and `Client.TransportFailureReclassified` rest on these assumptions.
- The `DEFAULT` omit sentinel is a constructor of its own (`Backups.DefaultLocation`, `Backups.DefaultDownload`). How the codec omits it is not modelled.
- aiohasupervisor/models/addons.py is not part of this model. Of `StoreAddonInstall` and `StoreAddonUpdate`, only `background` and the serialized body are kept. These options objects are taken to be always truthy.
- aiohasupervisor/client.py, the transport the store client calls, is not part of this model. Store results are read with the verb defaults and classification of the `aiosupervisor` transport.
- Floating-point fields (`size`, `progress`) are real numbers. Datetimes and UUIDs are kept as their text.
- `raise ... from err` exception chaining is not modelled, nor `__str__` of errors with several arguments.
- `ResponseType.STREAM`, aiohasupervisor/utils/aiohttp.py, the other component clients and the remaining model files are not part of this model. They map one method to one endpoint, or they declare records whose behaviour lives in the codec.
- Exceptions.ArchitectureMessageInjective: stated only for add-on slugs without spaces. A slug with a space can make two messages coincide.
- Exceptions.AddonMessagesDistinct: stated only for add-on slugs without spaces, for the same reason.
- Store.RepositoriesFrom: for an object with keys, iteration visits the keys in the order the JSON text gives them, and each key is passed to `from_dict`. The model's JSON objects are maps without an order, so this case reports the key set (`ObjectKeys`) instead of decoding the keys.
- Store.AvailabilityResult: the doc comment promises add-on-specific errors. The transport in this model raises only the bad-request class for a 400, because it does no error-key mapping.
