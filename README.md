# Growtopia token service — a Dafny model

The service accepts a login task over HTTP (`/createTask`), records it as
*processing* in an in-memory registry keyed by the account's mail, drives a
browser through a Google-style login that ends on a JSON page holding a
token, writes the outcome back into the registry, and answers polls
(`/getTaskResult`). This project models the three parts of `main.go` whose
behaviour can be stated exactly:

- **The task registry** (`registry.dfy`): class `TaskRegistry` over
  `map<string, TaskStatus>`, one method per locked section — `Register`
  (processTaskAsync), `Complete` (the worker's final write), `Evict`
  (cleanupOldTasks, a loop deleting expired entries) and `Lookup` (the read
  in handleGetTaskResult). Each method is tied to a function on maps
  (`Registered`, `Completed`, `Evicted`, `Get`), and the lemmas beside them
  state what the service promises: registration, completion that rewrites
  only its own id, eviction that leaves no expired entry, keeps every fresh
  one and is idempotent, and well-formed entries throughout.
- **The two JSON handlers** (`service.dfy`): the access-key gate, the 400
  paths, the registration on success, and the shaping of a poll reply
  (`omitempty` fields as `Option`).
- **Input shaping** (`go_strings.dfy`, `random_name.dfy`, `session.dfy`):
  `strings.Split`/`Contains`/`TrimPrefix`/`ToLower`, cookie records,
  the `--proxy-server` value, and `generateRandomName` with hex encoding and
  its inverse.
- **The login-flow decisions** (`flow.dfy`): handleInitial's branch order,
  the two polling loops, handleGrowtopia's optional fix-ups and the final
  classification of the page text, and the whole run as a function of what
  the page shows at each read.

Time is an integer count of nanoseconds since the Unix epoch, passed in as
`now`; Go's zero `time.Time` (year 1) is `Registry.ZeroTime`. The browser
page is a `Flow.Page` value listing what each read of the page returns;
`json.Unmarshal` is a parameter `string -> Result<map<string, JsonValue>, string>`;
the random bytes of `generateRandomName` are a parameter.

Behaviour worth knowing, modelled as the code does it:

- The worker's final write is unconditional. If the entry was evicted while
  the login ran, the write re-creates it with the zero start time (its map
  read yields the zero value); the next cleanup pass
  removes it again (`Registry.LateCompletionSwept`).
- Only the password poll is bounded (30 reads); the profile-conflict poll has
  no bound and is modelled with fuel, ending in `StillPolling`.
- A page with none of the expected markers is not handled: handleInitial
  fails with "unable to handle the page content". A run reaches the JSON
  token page only through one of its branches (`Flow.LoginOutcome`).
- An unknown id is answered with code 1, "processing", as the code does.

## Model

| member | source | states |
|---|---|---|
| `GoStrings.HasPrefix` | main.go:527 | a string has a prefix exactly when it agrees with it character by character, and is then that prefix followed by the rest |
| `GoStrings.Contains` | main.go:359-379 | a marker found in a page is no longer than the page; a marker at the start, or the empty marker, is always found |
| `GoStrings.ToLower` | main.go:519 | lowering keeps the length, leaves no ASCII capital or Kelvin sign, and leaves every other rune as it was |
| `GoStrings.TrimPrefix` | main.go:527-529 | at most one leading prefix is removed: prefix + result is the input when it had the prefix, else the input is returned |
| `GoStrings.ContainsIffOccurs` | main.go:359-379 | the substring test used on every page marker holds exactly when the marker occurs at some offset |
| `GoStrings.ContainsInContext` | main.go:367 | a marker placed anywhere in a page is found |
| `GoStrings.Split` | main.go:625 | splitting on one character yields one more field than there are separators, and no field holds the separator |
| `GoStrings.JoinSplit` | main.go:625 | rejoining the fields of a split with the separator gives back the record |
| `GoStrings.SplitJoin` | main.go:625 | splitting a join of separator-free fields gives back exactly those fields |
| `RandomName.HexDigit` | main.go:185 | each nibble becomes a lower-case hex digit |
| `RandomName.DigitValue` | main.go:185 | each lower-case hex digit names a nibble that encodes back to it |
| `RandomName.HexEncode` | main.go:185 | hex encoding gives two lower-case hex digits per byte |
| `RandomName.HexDecode` | main.go:185 | decoding gives one byte per digit pair |
| `RandomName.DecodeEncode` | main.go:185 | decoding an encoding gives back the bytes |
| `RandomName.EncodeDecode` | main.go:185 | encoding a decoding gives back the hex string |
| `RandomName.EncodeAppend` | main.go:185 | encoding distributes over concatenation of byte strings |
| `RandomName.GenerateRandomName` | main.go:175-187 | the name has 7 characters, all lower-case hex digits |
| `RandomName.NameLayout` | main.go:185 | the name is the encoding of the first three bytes followed by the high nibble of the fourth |
| `RandomName.SameName` | main.go:175-187 | two draws give the same name exactly when they agree on the first three bytes and the high nibble of the fourth |
| `Session.ParseCookieRecord` | main.go:625-659 | a record is skipped exactly when it has fewer than six tabs, i.e. fewer than seven fields |
| `Session.InstalledCookies` | main.go:623-661 | no more cookies are installed than there are records |
| `Session.InstallCookies` | main.go:621-663 | the loop installs exactly the cookies of the well-formed records, one at a time, in input order |
| `Session.CookieRecordRoundTrip` | main.go:625-653 | a record written from tab-free fields yields domain = field 0, path = field 2, secure iff field 3 is "TRUE", name = field 5, value = field 6 |
| `Session.InstalledAppend` | main.go:623-661 | the cookies of two batches of records are those of the first batch followed by those of the second |
| `Session.SkippedRecord` | main.go:627 | a short record changes nothing about the cookies installed |
| `Session.InstalledInOrder` | main.go:623-661 | when every record is well-formed, the i-th cookie installed comes from the i-th record |
| `Session.ProxyFlags` | main.go:517-557 | flags are set exactly when a proxy server is; flags after the server flag come only from the SOCKS5 branch and none sets the server again |
| `Session.ProxyServer` | main.go:517-557 | a proxy is configured exactly when both its data and its protocol are non-empty |
| `Session.LowerRuneTo` | main.go:519 | a rune lowers to an ASCII letter other than k exactly when it is that letter or its capital |
| `Session.Socks5Spellings` | main.go:519 | the SOCKS5 branch is taken for "socks5" in any mix of cases, K possibly written as the Kelvin sign, and for nothing else |
| `Session.ProxyFlagsShape` | main.go:517-559 | no flag without a proxy; the server flag comes first; SOCKS5 adds six more flags |
| `Session.Socks5Server` | main.go:525-535 | the SOCKS5 server value is the data itself when it already starts with "socks5://", else "socks5://" followed by the data |
| `Session.Socks5SchemeOptional` | main.go:525-535 | SOCKS5 data with or without its "socks5://" scheme gives the same server value |
| `Session.Socks5OnePrefixOnly` | main.go:527-529 | only one leading "socks5://" is removed: a doubled scheme is passed on as it is |
| `Session.OtherProxyServer` | main.go:551-557 | any other protocol is kept verbatim before "://" and the data |
| `Flow.ErrorText` | main.go:259-395 | every failure stored in the Error field has a non-empty text; a JSON failure is "failed to parse JSON: " followed by the decoder's message |
| `Flow.ErrorTextDistinct` | main.go:259-395 | distinct failures store distinct texts, so the Error field tells which failure ended the run |
| `Flow.InitialDecision` | main.go:359-395 | the rate-limit branch is taken exactly when the page mentions the rate limit; every other branch only when its own marker is present; failure only with no identifier field and no unidentified entry |
| `Flow.InitialPriority` | main.go:359-395 | handleInitial takes a branch exactly when its marker is present and no earlier one applies: rate limit, listed account, identifier field, unidentified chooser entry, else failure |
| `Flow.ListedAccountWins` | main.go:367-371 | a page listing the account's chooser entry is handled by clicking it, whatever else it shows, unless it is rate-limited |
| `Flow.FirstWithout` | main.go:221-233 | the poll stops at the first read without the marker, every earlier read had it; with no such read, all reads had it |
| `Flow.PollUntilAbsent` | main.go:315-327 | the polling loop returns exactly the first read without the marker within its bound |
| `Flow.Classify` | main.go:253-289 | a rate-limit failure exactly when the text mentions the rate limit; a token only when the text parses to an object whose `token` is that string; every other result is a parse failure or "token not found" |
| `Flow.PasswordPolls` | main.go:315-327 | the password poll makes between 1 and 30 reads, and every read before the last still showed the password step |
| `Flow.GrowtopiaRun` | main.go:191-291 | handleGrowtopia ends with the classification of the final text, or is still polling only when the arrival page showed a profile conflict; the conflict is resolved exactly then; at most three fix-ups |
| `Flow.LoginRun` | main.go:349-397 | the run performs no interaction exactly when handleInitial fails on the rate limit or an unhandled page; at most six interactions |
| `Flow.ClassifyCases` | main.go:253-289 | the final text gives a rate-limit failure first, then a parse failure, then "token not found" when `token` is not a string, else the token |
| `Flow.HandleGrowtopia` | main.go:191-291 | the fix-ups and the result are those of the specifying function, whose rename step (`Flow.RenameSnapshot`), conflict step (`Flow.GrowtopiaRun`) and modal step (`Flow.ModalSnapshot`) are stated by its lemmas |
| `Flow.HandleLoginForm` | main.go:295-333 | credentials, then at most 30 password-poll reads, then handleGrowtopia |
| `Flow.HandleInitial` | main.go:349-397 | the login run is the one the specifying function gives for the page |
| `Flow.LoginOutcome` | main.go:349-397 | a run ends with an initial failure, a conflict poll still waiting, or the classification of the final text; fix-ups never change the outcome |
| `Flow.PasswordPollBounded` | main.go:315-327 | the password poll reads the page between 1 and 30 times and stops early only on a read without the password step |
| `Flow.RenameSnapshot` | main.go:197-209 | the rename comes first, exactly when the arrival snapshot shows the name field, and carries the generated name; no later step renames; the conflict click precedes the modal dismissal, which comes last |
| `Flow.ModalSnapshot` | main.go:197-249 | the modal test reads the arrival snapshot, or the last read of the conflict poll when that poll ran |
| `Flow.FreshLoginScenario` | main.go:295-333 | a credential-form login with no fix-up markers whose final text holds a string token returns that token |
| `Flow.RateLimitedScenario` | main.go:359-363 | a rate-limited first page ends the run at once with "too many people trying to logon. please try again later" |
| `Registry.Registered` | main.go:409-417 | submission adds the id to the keys and writes a well-formed processing entry started now |
| `Registry.Completed` | main.go:435-463 | completion adds the id to the keys and writes a well-formed terminal entry, completed exactly for a token |
| `Registry.Evicted` | main.go:483-493 | a cleanup pass keeps an entry exactly when it is not expired, unchanged, and adds none |
| `Registry.RegisterEffect` | main.go:403-419 | right after submission the entry reads code 1, "processing", no token or error, started now; no other id changes |
| `Registry.CompleteEffect` | main.go:435-463 | completion rewrites only its id, to 3/"failed"/error text or 2/"completed"/token, keeping the current start time or the zero time if the entry is gone |
| `Registry.EvictionEffect` | main.go:483-493 | after a cleanup pass no entry started before now − 30 min is left, and every other entry is kept unchanged |
| `Registry.EvictionIdempotent` | main.go:483-493 | a second cleanup pass at the same instant changes nothing |
| `Registry.RetentionBoundary` | main.go:483-487 | a task started 31 minutes ago is removed; one started 29 or exactly 30 minutes ago stays |
| `Registry.LateCompletionSwept` | main.go:435-463 | a write after eviction re-creates the entry with the zero start time, and the next cleanup pass removes it |
| `Registry.OperationsKeepWellFormed` | main.go:409-461 | registration, completion and eviction keep every entry in one of the three shapes processing, completed, failed |
| `Registry.TaskRegistry.constructor` | main.go:167 | the registry starts empty |
| `Registry.TaskRegistry.Register` | main.go:407-419 | the new map is the old one with the processing entry for the id |
| `Registry.TaskRegistry.Complete` | main.go:429-463 | the new map is the old one with the terminal entry for the id |
| `Registry.TaskRegistry.Evict` | main.go:475-495 | the loop deleting expired entries leaves exactly the entries that are not expired |
| `Registry.TaskRegistry.Lookup` | main.go:825-829 | the read is Go's two-result map read `Get`: the entry and true, or the zero value and false |
| `Service.ShapeStatus` | main.go:833-875 | the reply echoes the id, reads processing for an unknown id, and carries a token or error only for a known id whose field is non-empty |
| `Service.ShapeStatusCases` | main.go:833-879 | an unknown id reads code 1, "processing", echoing the id and never failed; a known one copies code and status and carries token and error only when non-empty |
| `Service.ShapeStatusWellFormed` | main.go:851-879 | a reply from a well-formed entry never carries both token and error, and its code names its status |
| `Service.HandleCreateTask` | main.go:675-751 | an unreadable or malformed body gets 400 and a wrong access key 401 "Invalid access key", none touching the registry; otherwise the task is registered under its mail and the reply carries that id |
| `Service.HandleGetTaskResult` | main.go:755-881 | 400 and 401 replies as above; otherwise code 200 with the shaped entry for the id, processing for an unknown id; a reply for a known id never carries both token and error and its code names its status |
| `Service.WorkerOutcome` | main.go:425-463 | the worker writes nothing exactly while the conflict poll is still waiting; it writes a token exactly for a successful run, and a failure always with non-empty text |
| `Service.CompletedScenario` | main.go:423-463 | a submitted task whose login returns a token is then reported 2, "completed", with that token |
| `Service.FailedScenario` | main.go:435-447 | a submitted task whose login fails is then reported 3, "failed", with the failure's text |
| `Service.PollAfterSubmit` | main.go:403-419 | right after a submission is accepted, polling its id reads processing |

## Left out

- Browser driving (go-rod): launching, connecting, opening the page, waiting for load and request idleness, locating, clicking and typing, and tearing down. Actions are recorded as `Flow.Action` values but have no effect on what the page shows; what each read returns is an input (`Flow.Page`).
- The error paths of browser setup (launch, connect, page creation, the 30-second page-load timeout): they reach the registry only as an error text, which `Registry.TaskRegistry.Complete` takes as any string.
- Goroutines and the read-write lock: each locked section is one atomic method, and interleavings of sections of different tasks are not modelled; the cleanup pass the worker spawns is a separate `Evict` call.
- `time.Now`, `utils.Sleep` and Go's monotonic clock readings: instants are wall-clock nanoseconds passed as parameters.
- `crypto/rand` (and its panic on failure): the four bytes are a parameter.
- `json.Unmarshal` and the JSON encoder: decoding is an abstract parser; replies are datatypes whose `Option` fields stand for `omitempty`.
- The `/token` endpoint, `/`, `ListenAndServe` and all logging.
- Flow.HandleGrowtopia: the profile-conflict poll has no bound in the service; the model runs it for a given fuel and reports `StillPolling` when the fuel runs out.
- GoStrings.ToLower: only ASCII letters and the Kelvin sign are lowered; other Unicode case mappings are not modelled. No other rune lowers to a letter of "socks5", so the protocol test is exact.
- Go strings are byte sequences; the model uses sequences of Unicode scalar values, which agree with Go on valid UTF-8 for splitting on a tab and for substring tests.
- The request fields appleData, mobile, recovery and secret are carried but, as in the service, never used.
