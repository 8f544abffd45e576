# LibRemotebuild in Dafny

A model of the client library of a remote build server. The library builds REST
requests for the server; each answer carries an application status in two custom
headers (`X-Response-Status`, `X-Response-Message`), and the library decides from
them whether the response body may be decoded. The model covers:

- the request builder (a class whose chainable `With*` setters change one field in place);
- the body and header selection of the HTTP call;
- the validation of the status headers and the gating of decoding in `Do`;
- the error classifier `NewErrorFromResponse` and its rendering;
- the job, job-state and upload-type name tables and the argument-map keys;
- the AUR job builder (a class mutating its argument map);
- the service calls (jobs, login, registration, ping, ccache);
- the token and keyring decisions of the command-line client's configuration.

One module per Go file (`Requests`, `Response`, `Errors`, `JobType`, `JobStatus`,
`UploadType`, `Args`, `AUR`, `Jobs`, `User`, `RemoteBuild`, `Ccache`, `Config`),
plus `Common` (Option/Result, Go's `len` of a string as its UTF-8 byte count, ASCII
lower-casing) and `Decimal` (`strconv.Atoi` over 64-bit ints and `%d`).

Everything the library does not compute itself is a parameter:

- `Requests.Env` holds `url.Parse` (the error it gives), `json.Marshal` and the
  client's round trip (a transport error, or a status code, a header map and the
  outcome of reading the body).
- Each call that decodes a body takes the `json.Unmarshal` of its target type as an
  `unmarshal` function that may fail.
- The OS keyring lookup and the generated machine ID are arguments of the
  configuration functions.

A service call is specified by the request it builds (`AddJobCall`, `LoginCall`, …)
and by `Do` applied to that request, so every result is tied to the header check and
decode gating proved once about `Do`.

## Model

| member | source | states |
|---|---|---|
| Common.ToLower | User.go:12 | every ASCII capital becomes its small letter; every other character and the length are kept |
| Common.ToLowerIdempotent | User.go:12 | lower-casing an already lower-cased user name changes nothing |
| Common.Utf8Len | config/Config.go:198 | Go's byte length of a string lies between its character count and four times it, and is 0 only for "" |
| Common.Utf8LenAscii | config/Config.go:198 | on ASCII text the byte length is the character count |
| Decimal.Atoi | Requests.go:295 | a result exists only for a non-empty text opening with a sign or digit, and lies in the 64-bit int range |
| Decimal.AtoiItoa | Requests.go:295-300 | reading back what %d prints gives the same number, for every 64-bit int |
| Decimal.Itoa | Error.go:23 | the %d text is non-empty, starts with '-' exactly for negative numbers, and is all digits otherwise |
| Decimal.ItoaInjective | Error.go:23 | different HTTP codes print differently |
| JobType.String | JobType.go:12-21 | JobNoBuild is "NoJob", JobAUR is "buildAUR", and the name is "" exactly for an undeclared value |
| JobType.ParseJobType | JobType.go:24-33 | always yields a declared type, and JobAUR exactly for "buildAUR"; every other string, "" included, is JobNoBuild |
| JobType.ParseString | JobType.go:12-33 | parsing a declared type's name gives the type back |
| JobType.StringParse | JobType.go:12-33 | printing a parsed string gives the string back exactly when it is "NoJob" or "buildAUR" |
| JobStatus.String | JobStatus.go:17-33 | states 0..5 are named Waiting, Cancelled, Failed, Running, Done and Paused, and "<invaild>" names exactly the undeclared values |
| JobStatus.StringInjective | JobStatus.go:16-33 | two declared states with the same name are the same state |
| UploadType.String | UploadType.go:12-21 | 0 is "no upload", 1 is "DataManager", and "<invalid>" names exactly the undeclared values |
| UploadType.NamesDistinct | UploadType.go:12-21 | the two declared names differ from each other and from "<invalid>" |
| Args.KeysDistinct | Args.go:4-21 | the five argument keys are pairwise distinct |
| Response.HeaderGet | Requests.go:288-289 | a header's value, or "" when it is absent |
| Response.Len | Response.go:85 | the length of the job slice |
| Response.Less | Response.go:87 | Less(i, j) holds only for two distinct entries where j's ID is not below i's, and when it fails j's ID is at most i's; that it is exactly "i's ID is smaller" is proved in LessIsStrictWeakOrder |
| Response.LessIsStrictWeakOrder | Response.go:87 | Less is "smaller ID", irreflexive, asymmetric and transitive, with transitive incomparability |
| Response.Swap | Response.go:86 | entries i and j are exchanged, every other entry is unchanged, and the contents are a permutation |
| Response.Sort | Response.go:83-87 | sorting through Len, Less and Swap leaves a permutation of the jobs in ascending ID order |
| Errors.Message | Error.go:8-30 | the two library sentinels render as "Invalid response headers" and "response returned an error", a ResponseErr as its rendering, any other error as its own message |
| Errors.ErrorString | Error.go:21-30 | a present response prints as "HTTPCode: <code>; Message: <message>" whatever the cause; otherwise the cause's message; otherwise "Unexpected error" |
| Errors.ResponseTextInjective | Error.go:23 | two rendered responses are equal only if their HTTP codes and messages are |
| Errors.FirstError | Error.go:40-42 | only the first variadic error is used, and a nil one counts as absent |
| Errors.NewErrorFromResponse | Error.go:33-63 | the response is kept; a supplied error wins; status Error with no error gives ErrResponseError; otherwise there is no cause |
| Errors.ClassifiedText | Error.go:21-63 | with a response or a cause present, the rendering is never the fallback text unless the cause itself reads so |
| Requests.AuthorizationHeader | Requests.go:260-262 | the header value is the scheme, one space, then the credential, each recoverable by position |
| Requests.AuthorizationHeaderInjective | Requests.go:260-262 | for schemes without a space (such as Bearer) different authorizations give different header values |
| Requests.GetBearerAuth | Requests.go:77-82 | the Authorization header is "Bearer " followed by the session token |
| Requests.Request.New | Requests.go:134-144 | a JSON POST of application/json that closes the body, with no authorization, no extra headers and no bench channel |
| Requests.Request.WithNoBodyClose | Requests.go:147-150 | only CloseBody changes, to false; the same request is returned |
| Requests.Request.WithMethod | Requests.go:153-156 | only the method changes; the same request is returned |
| Requests.Request.WithRequestType | Requests.go:159-162 | only the request type changes; the same request is returned |
| Requests.Request.WithAuth | Requests.go:165-168 | only the authorization changes; the same request is returned |
| Requests.Request.WithAuthFromConfig | Requests.go:171-175 | only the authorization changes, to Bearer with the configured session token |
| Requests.Request.WithBenchCallback | Requests.go:178-181 | only the bench channel changes; the same request is returned |
| Requests.Request.WithContentType | Requests.go:184-187 | only the content type changes; the same request is returned |
| Requests.Request.WithHeader | Requests.go:190-197 | the header map is created when absent, name maps to value (last write wins), and every other entry is unchanged |
| Requests.PayloadPanics | Requests.go:234-242 | the payload switch panics exactly for a value-typed io.PipeReader under the raw request type, never for a JSON request or another payload |
| Requests.SelectBody | Requests.go:225-247 | JSON sends the marshalled payload or fails with Marshal's error; raw sends a byte slice or reader as is; anything else sends an empty body |
| Requests.RequestHeader | Requests.go:252-262 | Content-Type, then the extra headers, then Authorization when set, each overriding the earlier; nothing else |
| Requests.SentMethod | Requests.go:250 | the method put on the wire: "" becomes GET, any other method is kept |
| Requests.StandardMethodsValid | Requests.go:21-26 | GET, POST, PUT and DELETE are methods http.NewRequest accepts; "GE T" is not |
| Requests.RejectedMethodPanics | Requests.go:216-253 | a JSON request whose URL parses and payload encodes, sent with the method "GE T", panics |
| Requests.BuildHttpRequest | Requests.go:216-262 | a URL parse error or a marshal error fails the call; otherwise the request carries the sent method (a valid token, GET for ""), the URL, the endpoint, the chosen body and the headers; a rejected method is excluded as a panic |
| Requests.DoHTTPRequest | Requests.go:212-265 | a build failure is returned; otherwise the client's outcome for the built request; the panicking cases are excluded |
| Requests.ParseStatus | Requests.go:291-300 | the status is accepted exactly when Atoi reads it as 0 or 1, and then has that value; otherwise ErrInvalidResponseHeaders |
| Requests.ParseStatusOfItoa | Requests.go:291-300 | a status written as %d of n is accepted exactly for n of 0 or 1 and read back as n |
| Requests.Do | Requests.go:268-325 | a transport failure gives (nil, err); no error exactly when a response is returned whose raw response is the client's; a returned response with an error means invalid headers; decoding only on status Success with a target; the body is closed iff CloseBody on success |
| Requests.StatusOf | Requests.go:288-298 | a missing status header is invalid; an accepted status is Error or Success; every rejection is ErrInvalidResponseHeaders |
| Requests.InvalidHeaders | Requests.go:288-298 | bad status headers give ErrInvalidResponseHeaders together with a response carrying the HTTP code and headers, and nothing else |
| Requests.StatusFromHeaders | Requests.go:300-301 | with valid headers, status and message come from the two headers |
| Requests.MessageHeaderOptional | Requests.go:288-301 | a response with a valid status header and no X-Response-Message header is accepted, with the empty message |
| Requests.ErrorStatusSkipsBody | Requests.go:303-315 | status Error decodes nothing, fails nothing, and the target makes no difference |
| Requests.SuccessDecodes | Requests.go:304-314 | status Success with a target: a read or decode failure gives no response and that error, a successful decode fills the target |
| Requests.StatusScenarios | Requests.go:288-301 | status "1" with message "ok" and no target succeeds with that message; status "2" is rejected |
| RemoteBuild.CallFailed | remotebuild.go:23 | a call fails whenever Do errs, and otherwise exactly when the returned status is Error |
| RemoteBuild.Classify | remotebuild.go:24 | the error is a ResponseErr holding Do's response, and Do's error or ErrResponseError as its cause |
| RemoteBuild.LibRB.Request | remotebuild.go:16-28 | bearer authorization exactly when asked for; an error exactly when Do errs or the status is Error, with no response; otherwise Do's successful response |
| RemoteBuild.NewLibDM | remotebuild.go:9-13 | the handle holds exactly the given configuration |
| Jobs.AddJobCall | Jobs.go:8-14 | a JSON PUT to /job/create with bearer authorization whose payload names the job type, upload type and arguments |
| Jobs.AddJob | Jobs.go:4-22 | DisableCcache is always false; an error exactly when Do errs or the status is Error, with no result; otherwise the decoded response, which is present |
| Jobs.AddJobWithCcache | AUR.go:37 | as AddJob, with the given ccache flag in the payload |
| Jobs.ListJobsCall | Jobs.go:29-31 | a GET of /jobs with a nil payload and bearer authorization |
| Jobs.ListJobs | Jobs.go:25-39 | the same error branch as AddJob; on success the decoded listing, in the order the server sent it |
| Jobs.ListJobsSucceeds | Jobs.go:25-39 | a listing succeeds exactly when transport, status headers, body read and decoding succeed and the status is Success |
| User.LoginCall | User.go:10-14 | a POST to /user/login without authorization, sending the machine ID, the lower-cased user name and the unchanged password |
| User.Login | User.go:6-22 | an error exactly when Do errs or the status is Error, with no result; otherwise the decoded token, which is present |
| User.LoginIgnoresCase | User.go:12 | user names differing only in ASCII case send the same login request |
| User.RegisterCall | User.go:27-30 | a POST to /user/register without authorization or machine ID, sending the lower-cased user name and the password |
| User.Register | User.go:25-37 | Do's response is returned in every case; the classified error exactly when Do errs or the status is Error |
| User.PingCall | User.go:45-48 | payload "ping" to /ping, with bearer authorization exactly when a session token is configured |
| User.Ping | User.go:41-55 | Do's own error is returned unclassified; otherwise the decoded response, empty when nothing was decoded |
| User.PingErrorStatusIsReachable | User.go:49-54 | a server answering with status Error counts as reachable, with an empty response |
| Ccache.ClearCall | Ccache.go:5 | a POST of /ccache/clear with a nil payload and bearer authorization |
| Ccache.ClearCcacheAsWritten | Ccache.go:4-7 | the call dereferences nil exactly when Do returns no response; otherwise it returns the message and Do's error |
| Ccache.ClearCcacheAsWrittenPanics | Ccache.go:5-6 | with no target, Do returns no response exactly when the transport fails |
| Ccache.ClearCcache | Ccache.go:4-7 | the server's message, "" when no response arrived, and Do's raw error |
| Ccache.QueryCall | Ccache.go:12 | a GET of /ccache/stats with a nil payload and bearer authorization |
| Ccache.QueryCcache | Ccache.go:10-14 | the decoded statistics (empty when nothing was decoded, e.g. on status Error) and Do's raw error |
| AUR.Apply | AUR.go:22-33 | WithoutCcache sets the flag and touches nothing else; a data manager call sets DataManager and only adds keys; REPO is always kept |
| AUR.Run | AUR.go:12-33 | after any chain REPO holds the package, and ccache is disabled only if WithoutCcache was called |
| AUR.RunState | AUR.go:12-33 | after any chain of calls the arguments are exactly the package plus the last data manager triple; the upload type is DataManager iff a data manager call was made; ccache is disabled iff WithoutCcache was called |
| AUR.BuilderKeys | AUR.go:28-33 | no chain writes DM_NAMESPACE, and REPO always holds the package |
| AUR.WithoutCcacheIdempotent | AUR.go:22-25 | disabling ccache twice is disabling it once, and the arguments and upload type are untouched |
| AUR.WithDmanagerKeepsOthers | AUR.go:28-33 | the three data manager keys are set and every other entry, REPO included, is kept |
| AUR.AURBuild.NewAURBuild | AUR.go:12-19 | arguments exactly {REPO: package}, no upload, ccache enabled |
| AUR.AURBuild.WithoutCcache | AUR.go:22-25 | sets the flag, changes nothing else, returns the same builder |
| AUR.AURBuild.WithDmanager | AUR.go:28-33 | upload type DataManager and the three keys written in place |
| AUR.AURBuild.CreateJobAsWritten | AUR.go:36-38 | against the three-parameter AddJob the job is an AUR job with the builder's upload type and arguments, but with ccache always enabled |
| AUR.AURBuild.CreateJob | AUR.go:36-38 | an AUR job with the builder's current upload type, arguments and ccache flag |
| AUR.CcacheFlagDropped | AUR.go:37 | after WithoutCcache the request sent as written differs from the intended one and still enables ccache |
| AUR.YayBuild | AUR.go:12-33 | "yay", then WithoutCcache, then WithDmanager("bob","t123","h") gives exactly {REPO:"yay", DM_USER:"bob", DM_Token:"t123", DM_HOST:"h"}, DataManager and ccache disabled |
| Config.IsTokenValid | config/Config.go:197-199 | a valid (64-byte) token has between 16 and 64 characters; "" is never valid |
| Config.TokenValidAscii | config/Config.go:197-199 | an ASCII token is valid exactly when it has 64 characters |
| Config.GetKeyring | config/Config.go:202-208 | never empty: the configured keyring, or "login" when none is set |
| Config.IsUnlockError | config/Config.go:301-307 | nil is no unlock error; the config sentinel and any error whose message starts with the keyring's unlock failure text are; a missing entry is not |
| Config.UnlockErrorCases | config/Config.go:301-307 | nil is no unlock error; the sentinel is one; another error with the sentinel's text is not; a missing entry is not; the keyring's unlock failure text is |
| Config.GetToken | config/Config.go:259-285 | keyring disabled: the stored token; keyring success: its token; unlock failure with no stored token: ErrUnlockingKeyring; missing entry: ErrNotFound even with a stored token; any other failure: the stored token. An error always comes with "" |
| Config.IsLoggedIn | config/Config.go:175-192 | never without a user name; with the keyring disabled exactly when the stored token is valid; otherwise only if the stored or the keyring token is valid |
| Config.LoggedInIsValidToken | config/Config.go:175-192 | for a named user whose token lookup succeeds, logged in means the token GetToken gives is valid |
| Config.LoggedInWithoutKeyringEntry | config/Config.go:175-192 | with a valid stored token and no keyring entry the user is logged in, yet GetToken reports the missing entry |
| Config.GetMachineID | config/Config.go:159-172 | an empty ID is replaced by the generated one; the ID is sent when at most 100 bytes long, else "" |
| Config.MachineIDAscii | config/Config.go:166-171 | a stored ASCII ID is sent exactly when it has at most 100 characters |
| Config.GetNamespace | config/Config.go:394-396 | the namespace configured for the job type's name, "" when there is none |
| Config.DefaultConfig | config/Config.go:70-88 | the local server at http://localhost:9999 with certificates checked, no user, the "login" keyring, and buildAUR jobs in the "AURbuild" namespace |
| Config.IsDefault | config/Config.go:310-314 | a default configuration has no user name, no stored token, the keyring enabled and the "login" keyring, and checks certificates |
| Config.DefaultConfigFacts | config/Config.go:70-88 | a fresh configuration is default and maps buildAUR to "AURbuild"; a default configuration uses the "login" keyring and is not logged in |
| Config.ToRequestConfig | config/Config.go:335-344 | the request configuration carries GetToken's token, GetMachineID's ID and the server settings, and GetToken's error |

## Left out

- The HTTP transport is not modelled. `Requests.Env` holds three abstract functions: `url.Parse` (the error it gives), `json.Marshal`, and the client's round trip (`exchange`). TLS and the `IgnoreCert` client setting are not modelled.
- `path.Join` is not modelled: `exchange` receives the base URL and the endpoint separately (`Requests.HttpRequest`) and is left to join them.
- `http.NewRequest` is represented only by its treatment of the method: "" is sent as GET (`Requests.SentMethod`), and a method that is not an HTTP token is rejected (`Requests.ValidMethod`).
- Requests.BuildHttpRequest: a method `http.NewRequest` rejects makes it return a nil request, and setting its Content-Type header (Requests.go:253) then panics. The panic is not an outcome of the model; `Requests.Panics` names it and `BuildHttpRequest`, `DoHTTPRequest` and `Do` require its absence. The library's own calls use GET, POST and PUT, which are accepted. The other error `http.NewRequest` can give, re-parsing the rendered URL, is not modelled either.
- JSON encoding and decoding, and reading the body (`ioutil.ReadAll`), are abstract functions that may fail.
- Requests.Do: the bench channel send (Requests.go:272-274) is not modelled. It is a blocking send of the wall-clock time, so a full or unread channel blocks the call.
- Requests.Do: requires that `DoHTTPRequest` does not panic (`Requests.Panics`). Besides the rejected method, the panic comes from an `io.PipeReader` held by value under the raw request type: it matches the third case of the type switch, whose assertion to `*io.PipeReader` panics (Requests.go:240-241). Both panics happen only after the URL has parsed (Requests.go:216-218), so a URL parse error is still returned as an error for such requests. The panic is not an outcome of the model.
- Requests.Do: only `X-Response-Status` is validated (Requests.go:291-298). A missing `X-Response-Message` is read as "" and accepted (`Requests.MessageHeaderOptional`), although the comment on `ErrInvalidResponseHeaders` (Error.go:9) speaks of missing response headers in general. The model follows the code.
- Requests.Do: `json.Unmarshal` may leave a target partly filled when it fails. The model treats a failed decode as filling nothing, so `Ccache.QueryCcache` returns the empty response where Go may return a partly decoded one.
- Ccache.QueryCcache: after a failed decode it returns the empty `StringResponse`; Go may return one partly filled by `json.Unmarshal`.
- Requests.RequestHeader: header names are kept as given. `http.Header.Set` canonicalises them ("content-type" and "Content-Type" are one header); that is not modelled.
- Response.HeaderGet: names are looked up exactly as given. Go's client canonicalises the names of received headers and `Header.Get` canonicalises its key; the model assumes `exchange` returns canonical names, as `X-Response-Status` and `X-Response-Message` are.
- Response bodies are streams in Go. Only whether the body is closed (`bodyClosed`) is kept.
- Requests.Bearer: the constant is taken to be "Bearer" (the scheme of section 2.1 of RFC 6750). The Go file that declares it is not part of this model.
- A nil `*RequestConfig` (which makes `WithAuthFromConfig` panic) cannot occur: the configuration is a value.
- Timestamps and durations of `JobInfo` are opaque integers.
- Response.Sort: `sort.Sort` itself is not part of this model. `Response.Sort` is an insertion sort through `Len`, `Less` and `Swap` that shows these three order the jobs; it does not reproduce Go's algorithm or its order among equal IDs.
- Common.ToLower: `strings.ToLower` is modelled for ASCII letters only; Unicode case mapping is not modelled. This affects `User.LoginCall`, `User.Login`, `User.RegisterCall` and `User.Register`.
- User.LoginCall: the user name is lower-cased for ASCII letters only (`Common.ToLower`).
- User.Login: the user name is lower-cased for ASCII letters only (`Common.ToLower`).
- User.RegisterCall: the user name is lower-cased for ASCII letters only (`Common.ToLower`).
- User.Register: the same ASCII-only lower-casing applies.
- Config.GetMachineID: `GenMachineID` (the machine-ID library and a random fallback) is the `generated` argument. Saving the configuration after an ID is generated is not modelled; the new configuration is returned instead.
- Config.GetMachineID: the warning `fmt.Println` prints for an over-long ID (config/Config.go:167) is not modelled.
- Configuration I/O is not modelled: `InitConfig`, `Save`, `View` (YAML), `getDataPath` and `GetDefaultConfigFile` read or write files.
- `SetMachineID`, `InsertUser` and `SetToken` are not modelled: they write the OS keyring or the configuration file. `MustSetToken` and `MustGetRequestConfig` also end the process with `log.Fatal`. `ClearKeyring` deletes a keyring entry. `Validate` always returns nil.
- Config.IsLoggedIn and Config.GetToken: the keyring lookup for the user is their `lookup` argument, and they are not consulted when the keyring is disabled.
- The request types `JobRequest` and `JobLogsRequest` and the endpoints `EPJobLogs` and `EPJobCancel` are omitted: they have no caller in the library. There is no code for cancelling, pausing, log tailing, setting job states or parsing upload types, so none is modelled.
- `ListJobs` does not sort; the jobs keep the server's order.
- Declarations that no modelled code uses are omitted: `DataDir`, `DefaultConfigFile` and `KeyringServiceName` (config/Config.go:24-29), `HeaderRequest` and `HeaderContentLength` (Response.go:29-32), and `StringSliceResponse` (Response.go:55-57).

## Findings

| source | as written | input that shows it | evidently intended | confidence | as-written member | corrected member |
|---|---|---|---|---|---|---|
| Ccache.go:6 | `ClearCcache` returns `resp.Message` without checking `resp`, and `Do` returns a nil response on a transport failure | any `ClearCcache()` against an unreachable server (the round trip fails) | return "" and the transport error | high; not executed | Ccache.ClearCcacheAsWritten | Ccache.ClearCcache |
| AUR.go:37 | `CreateJob` passes `DisableCcache` as a fourth argument to `AddJob`, which Jobs.go:4 declares with three parameters and whose request never sets `DisableCcache`; the package does not compile as written | `NewAURBuild("yay").WithoutCcache().CreateJob()` | the builder's ccache flag reaches the `AddJobRequest` payload | high; not executed | AUR.AURBuild.CreateJobAsWritten | AUR.AURBuild.CreateJob |
