# Verification of govka's concurrent core

govka is a VK client in Go. Its hard part is what keeps a session running: goroutines
that share a connection slot, a rotating refresh token, a long poll cursor, a request
limiter, a retry loop and a session file. This project models those parts in Dafny and
proves what they guarantee.

How the parts are modelled:

- **Lifecycle** (`Lifecycle`, `LifecycleInvariant`, `LifecycleTheorems`, `LifecycleRuns`,
  `LifecycleStories`, `ClientSlot`).
  `Connect`, `run`, `Disconnect` and `Logout` as a transition system with any number of
  goroutines and one program counter each. Every section that holds `connMu` is one
  action, and so is every dispatch, channel operation and `go` statement. Contexts and
  done channels are fresh numbers. The theorems hold after every list of enabled
  actions, that is, in every interleaving. `ClientSlot.ConnState` has the four critical
  sections in place; its methods and the actions share one specification each.
- **Token refresh** (`Vkid`, `Rotation`, `RotationInvariant`, `RotationTheorems`,
  `RotationSessions`, `RotationTokens`, `RotationProgress`).
  `Token`, `tryRefresh` and `singleflight.do` as interleaved steps with a history of
  flights, requests, saves and events. Replies, clock and failures are arbitrary.
- **Long poll** (`Cursor`, `CursorTheorems`, `CursorLog`, `Poller`). `Cursor` says, on
  the observable history alone, which request, sleep, delivery or return may come next:
  the cursor is a fold over the answers. `Poller.Poller` is the class with its nested loops, proved to
  produce only accepted histories over any number of Runs. The theorems are about all
  accepted histories.
- **Limiter and retries** (`Limiter`, `ApiClient`, `Errors`). Times are nanoseconds. The
  64-bit shift of the retry delay is modelled with its wrap-around.
- **Storage** (`Storage`, `StorageTheorems`, `FileStore`). Concurrent `StoreSession`
  calls through several `File` values, with a failure exit at every step and crashes at
  any point. `FileStore` has the same steps as written, proved to be runs of that
  system, and the in-memory storage with its buffer copies.
- **Updates** (`Text`, `Decoder`, `DecoderTheorems`, `DecoderReads`). The positional
  decoder over a JSON value type, and message text against the escaping it undoes.

What the proofs show to be false of the code, or different from its documentation:

- "A plain per-second cap" (`api/limiter.go:9-10`): holds exactly when `RPS` divides
  10^9. The default of 3 can let 4 requests be reserved in one second
  (`Limiter.CapHoldsIff`, `Limiter.DefaultHoldsFour`).
- The retry delay is capped at 10 s (`api/client.go:169-175`) only up to attempt 33; at
  34 the shift overflows and the delay is negative, so all delays are the intended ones
  exactly when `MaxRetries` is at most 34 (`ApiClient.DelaysAreIntendedIff`).
- `Disconnect` "stops the long poll loop and waits for it to finish"
  (`govka.go:303-304`): a second, concurrent `Disconnect` returns at once. It leaves a
  live run behind exactly while the first one is still waiting for that run
  (`LifecycleTheorems.EarlyDisconnect`, `EarlyDisconnectHappens`).
- A caller that joined a refresh in flight can be told the result of a later one
  (`RotationTheorems.FollowerMayMissItsFlight`): it is told its own flight's exactly if no
  later one has completed when it reads the result (`FollowerSeesItsFlightIff`).
- `Memory` does not tell an empty session from none: storing no bytes makes
  `LoadSession` report that nothing was found (`FileStore.Memory.StoreSession`).
- The design note (`docs/superpowers/specs/2026-09-22-govka-design.md:210-212`) has an
  API call refresh and retry on error 5, once. In the code a call returns the error
  (`ApiClient.FatalCodesAreNotRetried`); only `run` reacts to it, and it refreshes exactly
  when poller.Run has returned it, whatever the lineage did before
  (`LifecycleRuns.RefreshesIffAuthFailed`). For every n there is a run in which one Connect
  leads to n refreshes and n reconnects (`LifecycleRuns.LineageRefreshesAgain`).

## Model

| member | source | states |
|---|---|---|
| LifecycleInvariant.KeepInv | govka.go:221-330 | every step of every goroutine keeps the inductive invariant of the slot protocol |
| LifecycleInvariant.OwnDoneMeansFree | govka.go:281-292 | why the reconnect branch is sound: an ended run that still finds its own done in the slot knows that nobody has set connected since |
| LifecycleTheorems.SlotOwnership | govka.go:244-299 | in every interleaving at most one run is starting or inside poller.Run, connected is true exactly when there is one, and a filled slot then holds that run's cancel and done |
| LifecycleTheorems.DisconnectStops | govka.go:303-315 | when a Disconnect that took a pair returns and no Connect has committed meanwhile, no run is live, connected is false and the slot is empty |
| LifecycleTheorems.TakenStaysDown | govka.go:281-294 | a run whose pair a Disconnect took never starts a successor, in any continuation |
| LifecycleTheorems.ChannelDiscipline | govka.go:249-262 | cancel and done are nil together; every channel made is closed or the business of exactly one goroutine; none is closed twice |
| LifecycleTheorems.NoOrphanWait | govka.go:305-315 | a waiting Disconnect has a channel that is closed or belongs to a run started or committed to start, and it is the run that it cancelled |
| LifecycleTheorems.RunWindsDown | govka.go:261-301 | each own step of the goroutine responsible for a channel, poll events apart, brings it nearer to closing it |
| LifecycleTheorems.OthersDoNotInterfere | govka.go:261-301 | steps of other goroutines do not take it further away |
| LifecycleTheorems.ResponsibleCanStep | govka.go:261-301 | the responsible goroutine has a step to take, where poller.Run and the refresh are assumed to return in the end |
| LifecycleRuns.ChannelsAreClosed | govka.go:261-301 | in every continuation of every run a channel is closed by the time the goroutines responsible for it have taken ten steps apart from poll events, and until then one of them has such a step to take |
| LifecycleRuns.JoinIsReached | govka.go:305-315 | from every reachable state a waiting Disconnect is let go by a bounded number of steps, all of the goroutines responsible for the channel that it waits for |
| LifecycleTheorems.EarlyDisconnect | govka.go:305-312 | when the slot is empty, connected is still true exactly while another Disconnect waits for the live run |
| LifecycleTheorems.EarlyDisconnectHappens | govka.go:305-312 | an interleaving in which a Disconnect returns while connected is true |
| LifecycleTheorems.LineageEvents | govka.go:256-300 | for one Connect and its reconnects: Connected first and once, a terminal event last and at most once, updates in between; LoggedOut only when logged out |
| LifecycleTheorems.LineageEnds | govka.go:267-300 | a lineage that has ended has its terminal event, or it ended silently and a Disconnect or a Connect had put its last run's done out of the slot |
| LifecycleRuns.LineageSilentIff | govka.go:271-298 | a lineage ends without a terminal event exactly if its run's refresh succeeded, its context was not cancelled at the check after it, and the slot did not hold its done at the re-lock |
| LifecycleRuns.RefreshesIffAuthFailed | govka.go:263-273 | in every run a refresh starts exactly if the last thing its goroutine saw was poller.Run returning an authorization failure, whatever the lineage did before |
| LifecycleRuns.LineageRefreshesAgain | govka.go:271-295 | for every n a run with one Connect whose lineage refreshes and reconnects n times |
| LifecycleStories.TerminalEvent | govka.go:263-300 | which event ends a run, in every interleaving: a clean Disconnected exactly if poller.Run was cancelled or the context was found cancelled after the refresh, whatever that came to; Disconnected with the error exactly if poller.Run failed otherwise; LoggedOut exactly if the refresh failed on a live context |
| LifecycleStories.EndedRunHasTold | govka.go:267-300 | an ended run has dispatched that one event, or none exactly if it refreshed on a live context; and it has set loggedOut exactly if the refresh failed on a live context |
| LifecycleStories.RunLogsOut | govka.go:273-297 | a run sets loggedOut only after its refresh failed and its context was found live |
| LifecycleStories.LoggedOutIff | govka.go:296-321 | loggedOut is set exactly if such a run or a Logout has set it |
| LifecycleStories.ConnectResultIff | govka.go:221-258 | what Connect returns, exactly: already connected if it was at either section, logged out if it began so, the users.get error, else success |
| LifecycleStories.CommitsWereAllowed | govka.go:222-248 | no run is committed by a Connect that began while connected or logged out, or whose users.get failed |
| LifecycleStories.DisconnectHasDone | govka.go:305-321 | a returned Disconnect has cancelled and waited exactly if it found a pair, and has set loggedOut exactly if it is part of a Logout |
| LifecycleStories.UpdatesAreHandled | govka.go:263-263 | every event that poller.Run hands over is dispatched once, in its lineage, and no other update is |
| ClientSlot.ConnState.Commit | govka.go:244-254 | the second critical section of Connect, in place |
| ClientSlot.ConnState.ClearConnected | govka.go:264-266 | the section of run after poller.Run |
| ClientSlot.ConnState.Reconnect | govka.go:281-292 | the reconnect section: refused unless the slot holds the run's own done |
| ClientSlot.ConnState.Take | govka.go:306-309 | Disconnect empties the slot and leaves connected alone |
| RotationTheorems.RequestsRotate | govka.go:354-381 | refresh requests never overlap, and each carries the refresh token of the latest successful response, or the initial one |
| RotationTheorems.TokensAreSentOnce | govka.go:334-381 | if the server issues fresh tokens, a token whose success response was received is never sent again, even on a stale decision to refresh |
| RotationTheorems.OneLeader | govka.go:436-458 | at most one fn runs at a time |
| RotationTheorems.ResultsAreRecent | govka.go:436-458 | every caller is told the result of a flight that completed after its call began; nil exactly if a request of that flight succeeded |
| RotationTheorems.FollowersSeeNoEarlierFlight | govka.go:438-457 | the leader is told its own result, a follower that of the flight it joined or a later one |
| RotationTheorems.FollowerSeesItsFlightIff | govka.go:441-445 | a follower is told the result of the flight it joined exactly if no later one has completed when it reads err |
| RotationTheorems.FollowerMayMissItsFlight | govka.go:441-445 | an interleaving, with or without a storage, in which a follower of a failed flight is told nil |
| RotationProgress.NoFollowerIsStranded | govka.go:441-456 | a caller that waits for a flight can be woken, or another goroutine leads that flight or is about to release it |
| RotationProgress.CarrierMovesOn | govka.go:447-456 | that goroutine has a step to take, the reply to its request counted as one, and each of its steps brings it nearer to the release |
| RotationTheorems.SessionInvariant | govka.go:358-371 | the access token is never empty, the device never changes, the refresh token is that of the latest success, and with one the session stays refreshable |
| RotationTheorems.OnlySuccessPublishes | govka.go:365-371 | only the leader of a flight whose request succeeded replaces the session; a failed refresh changes nothing, and a user id is only filled in where there is none |
| RotationSessions.HoldsLatest | govka.go:369-371 | except while a reply waits to be published, the client holds the session of the latest accepted reply: its access and refresh token, id token, scope and lifetime, the first device and the configured client |
| RotationSessions.EachIsSavedAndTold | govka.go:372-378 | each accepted reply is announced once, in order, with the session it stands for, and before that saved once if there is a storage |
| RotationTokens.TokenRefreshesIff | govka.go:335-343 | Token goes on to refresh exactly if the session has a refresh token, a device and a client and expires within a minute or has expired |
| RotationTokens.TokenReturns | govka.go:339-350 | Token returns the access token it read if that was not about to expire, the one the client then holds after a successful refresh, and the one it read after a failed one |
| RotationTokens.SendsIffComplete | govka.go:359-365 | a flight sends a request exactly if the session it clones is complete, with that session |
| RotationTokens.SendsAreComplete | vkid/vkid.go:332-338 | no request goes out without a refresh token, a device and a client |
| RotationTokens.AcceptedIff | vkid/vkid.go:406-413 | a reply is accepted exactly if it came and has an access token |
| RotationTheorems.RefreshedWasSaved | govka.go:372-379 | with a storage, each TokenRefreshed carries a session that was offered to it before, and no save failed validation |
| RotationTheorems.TokenIsNeverEmpty | govka.go:334-351 | Token never returns an empty token |
| Rotation.Singleflight.Enter | govka.go:437-450 | the first section of do: follow the flight in progress or start one |
| Rotation.Singleflight.Finish | govka.go:452-455 | the last section of the leader |
| Vkid.SessionCell.RefreshSession | vkid/vkid.go:331-348 | the session is replaced as a whole on success and untouched on failure |
| Vkid.Refresh | vkid/vkid.go:299-328 | the argument checks, and the token of an accepted answer with its device |
| Vkid.RefreshedKeeps | vkid/vkid.go:331-348 | every field of a refreshed session: the device and a user id that the response lacks are kept, the client is the configured one or else kept, the lifetime counts from now, the rest is the response's |
| Vkid.RefreshedIff | vkid/vkid.go:331-348 | a refresh succeeds exactly if the session can be refreshed and the response has an access token |
| CursorTheorems.NextRequest | longpoll/poller.go:113-193 | each request is given by the one before, its answer and the server fetched in between: failed 1 takes a nonempty ts, failed 2 keeps its own through any failed attempts, failed 3 and unknown codes take the fetched one, an error repeats the request |
| CursorTheorems.FirstRequest | longpoll/poller.go:154-176 | the first request uses the server fetched before it |
| CursorTheorems.PtsIsLastSeen | longpoll/poller.go:142-173 | pts is the last nonempty one seen, over all Runs |
| CursorTheorems.AcknowledgedIsDelivered | longpoll/poller.go:142-150 | outside a batch the events handled are exactly the decoded updates of all accepted responses, once and in order, over any number of Runs; during one, all but its rest |
| CursorTheorems.WaitedForStreak | longpoll/poller.go:108-135 | the time slept is the sum of the delays of the failures since the last decoded body |
| CursorTheorems.DelayGrows | longpoll/poller.go:279-286 | the delay is positive, does not shrink in a streak and respects the cap |
| CursorTheorems.DefaultWait | longpoll/poller.go:279-286 | n failures under the default cap wait 2^n - 1 s up to 5, and 30 s more for each after |
| CursorTheorems.RunEndsFor | longpoll/poller.go:107-152 | Run returns only a context error, a failed sleep's error, a fatal error or that of failed 4 |
| CursorTheorems.FatalEndsRun | longpoll/poller.go:113-117 | a fatal error of the server lookup is returned at once, with nothing sent or slept |
| CursorLog.SleepsByFailures | longpoll/poller.go:118-133 | every sleep is as long as the failed lookups and polls since the last restart ask for, counted on the log: 1, 2, 4, 8, 16, 32, then 64 seconds, for every cap |
| CursorLog.StreakSleeps | longpoll/poller.go:118-133 | the log's sleeps of a streak add up to the sum of its delays |
| CursorLog.WhatFollows | longpoll/poller.go:107-152 | which entry follows each entry of a history, by the codes and errors themselves: what a failed poll, a failed lookup, each failure code, a sleep and a delivery lead to |
| CursorLog.StartsWithRun | longpoll/poller.go:107-112 | a history starts with a Run |
| CursorLog.FatalIffEndsLookup | longpoll/poller.go:290-303 | the lookup errors that end a Run are the two context errors and codes 2, 3, 5, 7, 14, 15 and 17 |
| Poller.Poller.Run | longpoll/poller.go:107-152 | every Run continues an accepted history, and leaves nothing acknowledged undelivered |
| Poller.Poller.Loop | longpoll/poller.go:108-151 | the loop of Run: the streak counter and the cursor fields are those of the fold |
| Poller.Poller.EnsureServer | longpoll/poller.go:154-176 | the cached server with the current ts, or a fetched one that replaces server, ts and a pts |
| Poller.Poller.RefreshServer | longpoll/poller.go:180-193 | a new server, with the old ts kept when asked for and not empty |
| Poller.Poller.RetryRefresh | longpoll/poller.go:264-277 | retries until there is a new server, a fatal error or a failing sleep |
| Poller.Poller.HandleFailed | longpoll/poller.go:240-262 | the recovery each failure code asks for |
| Poller.Poller.Backoff | longpoll/poller.go:279-286 | sleeps the delay the streak calls for |
| Poller.Poller.Deliver | longpoll/poller.go:148-150 | a batch is handed over whole, in order |
| Limiter.Limiter.Reserve | api/limiter.go:27-40 | the next reservation, in place, and the delay until it |
| Limiter.ClosedForm | api/limiter.go:27-40 | reservation k is the maximum over i <= k of arrival i plus k - i intervals |
| Limiter.SlotsAreFifo | api/limiter.go:27-40 | reservations are in order, never early and an interval apart |
| Limiter.SlotsAreEarliest | api/limiter.go:27-40 | no schedule with these properties serves any request earlier |
| Limiter.WindowBound | api/limiter.go:9-40 | any second holds at most ceil(10^9 / interval) reservations |
| Limiter.WindowFills | api/limiter.go:9-40 | and calls that arrive together do fill one |
| Limiter.PerSecondVsRps | api/limiter.go:19-25 | that bound is RPS exactly when RPS divides 10^9, and at most RPS + 1 while RPS^2 <= 10^9 |
| Limiter.CapHoldsIff | api/limiter.go:9-25 | the per-second cap is kept exactly when RPS divides 10^9, for every positive RPS |
| Limiter.DefaultHoldsFour | api/client.go:22-23 | the default of 3 lets four reservations fall in one second |
| ApiClient.Client.Do | api/client.go:188-197 | one attempt: the token, then its own reservation, then the send, or the error that stops it |
| ApiClient.Client.CallEnvelope | api/client.go:140-156 | the attempts of a call, its result and its whole log: retried while the failure is retryable, retries are left and the sleep succeeds |
| ApiClient.RetriedIff | api/client.go:149-154 | an attempt is followed by another exactly if it failed with code 1, 6 or 10 or a timeout, retries are left and the sleep succeeds |
| ApiClient.AttemptCount | api/client.go:140-156 | a call that no failing sleep ends makes min(MaxRetries + 1, 1 + leading transient failures) attempts |
| ApiClient.WrapIs | api/client.go:170-170 | the shifted delay is the 64-bit signed value of the exact one |
| ApiClient.BackoffIsIntended | api/client.go:169-175 | up to attempt 33 the delay is the doubled second capped at ten |
| ApiClient.BackoffOverflows | api/client.go:169-175 | at attempt 34 it is negative |
| ApiClient.DelaysAreIntendedIff | api/client.go:149-175 | all delays of a call are the intended ones exactly when MaxRetries <= 34 |
| ApiClient.RetryWait | api/client.go:149-175 | r retries wait 2^r - 1 s up to 4, and 10 s more for each after |
| ApiClient.FatalCodesAreNotRetried | api/errors.go:83-89 | an API code that is fatal for the poller ends the call at once, with its error |
| StorageTheorems.PathIsWhole | session/storage.go:62-94 | after any steps of any calls, crashes included, a path holds its first content if no call replaced it, else the whole data of the last call that did |
| StorageTheorems.NilMeansReplaced | session/storage.go:62-94 | of the calls of the running process: a nil return means this call's data was installed, once; a call that failed or has not returned installed nothing |
| StorageTheorems.ReturnIsFinal | session/storage.go:62-94 | whatever happens later, crashes included: the replacement by a call that returned nil stays on record, and a call that failed, or that a crash ended before it replaced its path, never will |
| StorageTheorems.LoadedIsWhole | session/storage.go:48-59 | in any reachable state there is nothing to load exactly if there was nothing at first and no call replaced the path; else the first content or the whole data of the last call |
| StorageTheorems.OneCallPerFile | session/storage.go:63-64 | calls through one File exclude each other |
| StorageTheorems.TempsAreRemoved | session/storage.go:73-91 | without a crash, the only temporary files are those of calls in progress and those whose removal failed |
| FileStore.File.StoreSession | session/storage.go:62-94 | nil exactly if no operation failed; the path changes only then; temporary files are gone if they can be removed; and the call is a run of the transition system |
| FileStore.File.Replace | session/storage.go:73-93 | the steps after the temporary file exists, with their cleanup |
| FileStore.File.LoadSession | session/storage.go:48-59 | in every state that calls and crashes lead to: nothing found exactly if there never was anything, and otherwise the whole data of a call or the content from before all calls |
| FileStore.File.StoreAndLoad | session/session_test.go:44-74 | after a store that returned nil, any File of the path loads that data; after one that failed, it loads what it would have before |
| FileStore.Memory.StoreSession | session/storage.go:30-35 | keeps a copy that the caller's buffer is not shared with; empty data counts as none |
| FileStore.Memory.LoadSession | session/storage.go:20-27 | gives out a copy |
| Text.HtmlEscape | vkid/login.go:140-158 | the loop computes the character by character escaping |
| Text.TextUndoesEscape | longpoll/decode.go:107-112 | Text gives back every escaped string, also with its newlines written as breaks |
| Text.OtherOrderIff | longpoll/decode.go:109-112 | the other order of the two passes works exactly on strings without a literal break |
| Text.UnbreakJoins | longpoll/decode.go:110-110 | every break becomes a newline and nothing else changes |
| Text.UnescapeKeepsIff | longpoll/decode.go:111-111 | unescaping changes a string exactly if it has one of the entities |
| Text.EscapedIsInert | vkid/login.go:140-158 | an escaped string has no '<', '>' or double quote |
| Text.EntitiesAreEscapes | longpoll/decode.go:111-111 | the entities that are read are exactly the escapes that are written |
| Text.AmpersandsAreEntities | vkid/login.go:140-158 | every ampersand of an escaped string starts one of the four entities |
| Decoder.ReadInts | longpoll/decode.go:75-82 | the integers of an array, skipping what is none |
| Decoder.ReadObject | longpoll/decode.go:95-104 | the string map of an object, in any order of its keys |
| DecoderTheorems.TypedIffWellFormed | longpoll/decode.go:16-30 | an update is typed exactly if the positions its code needs hold integers (for code 114, a nonempty object); anything else comes back whole as a RawUpdate |
| DecoderTheorems.DecodedIsCanonical | longpoll/decode.go:114-311 | which events decoding can give: dates set, platform a byte, sender and direction derived, one of two order ids |
| DecoderTheorems.FormatReads | longpoll/decode.go:34-54 | every 64-bit integer is read back from its decimal text |
| DecoderTheorems.RoundTrip | longpoll/decode.go:114-311 | the positional encoding of every such event decodes to it |
| DecoderTheorems.NormalForm | longpoll/decode.go:16-30 | decoding, encoding and decoding again is decoding |
| DecoderTheorems.DroppingResets | longpoll/decode.go:114-311 | cutting a typed update at any position leaves it typed exactly while what its code needs is there, and then only resets the fields read from what was cut, each to its default; a message that loses its extra fields has its sender derived without them |
| DecoderTheorems.CutEncodingResets | longpoll/decode.go:114-311 | so the encoding of an event, cut, decodes to the event without those fields |
| DecoderTheorems.NullIsMissing | longpoll/decode.go:34-105 | in a typed update trailing elements that are null and ones that are missing mean the same |
| DecoderReads.IntegerIff | longpoll/decode.go:34-54 | a text is read as v exactly if it is an optional sign, any zeros and the digits of v |
| DecoderReads.IntOfIff | longpoll/decode.go:34-54 | an element reads as an integer exactly if it is a number or a string, and spells one of 64 bits, or else has a float64 reading |
| DecoderReads.ParseAnywayIs | longpoll/decode.go:276-278 | a member read with its error ignored is the number it spells, at the nearest 64-bit bound, and 0 if it spells none |
| DecoderReads.MessageSender | longpoll/decode.go:304-309 | the sender of a message is the one its extra fields name in any spelling, else the peer of an incoming message that is not from a chat, else 0; outgoing is the second flag bit |
| DecoderReads.ReadsTyping | longpoll/decode.go:232-257 | the typing events, of one user, in a chat by its number, and with a list of users |
| DecoderReads.ReadsSettings | longpoll/decode.go:271-279 | settings are read from members that are numbers or strings alike |
| DecoderReads.ReadsOnline | longpoll/decode.go:165-172 | the user id is negated with 64-bit wrap-around, the platform is the low byte |
| DecoderReads.ReadsOffline | longpoll/decode.go:173-180 | timeout exactly for flag 1 |
| DecoderReads.ReadsChat | longpoll/decode.go:217-223 | self exactly for flag 1 |
| DecoderReads.IntsJoin | longpoll/decode.go:76-81 | lists of integers are read element by element |
| DecoderReads.IntsOfOne | longpoll/decode.go:76-81 | an element that is no integer is skipped |
| DecoderReads.ObjectIs | longpoll/decode.go:87-105 | an object keeps its keys, each with the plain text of its value |
| DecoderReads.StringIs | longpoll/decode.go:56-65 | a text is a string's value, the source text of anything else, and empty for null and for nothing |

## Left out

- HTTP, TLS, URL encoding, JSON syntax, hashing, randomness: answers are values, tokens
  and channels are fresh values.
- Handlers are one event appended to a history; they are assumed to return and not to
  call Disconnect (one that does waits for its own run). Their registration, order and
  panics, `hydrate`, and the own user id that `handleUpdate` fills in as the sender of an
  outgoing message, are not modelled.
- The LoggedOut event that Logout itself dispatches belongs to no lineage and is not
  recorded.
- In the lifecycle, what poller.Run, users.get and tryRefresh return is chosen freely.
- `loggedOut` implies nothing about `connected`: Connect checks it only in its first
  section, so no such theorem is stated.
- That poller.Run returns once its context is cancelled, and that a refresh returns, is
  assumed where a Disconnect is said to be let go: their return is a step to take.
- `Vkid`: a configured VK ID is assumed; without one tryRefresh fails, which the
  lifecycle includes as a failed refresh.
- Rotation: a user id that Connect writes between the clone and the publish of a refresh
  can be lost; the theorems therefore compare sessions up to the user id.
- The poller's environment is a finite list of answers, after which the context counts
  as cancelled; the theorems cover every finite history.
- `GetServer` is one interaction; the retries inside it are those of `ApiClient`. The
  scheme prefix of a server's URL is not modelled.
- The limiter controls reservations; how far sends are apart after their sleeps is not
  stated. A negative RPS, which turns the limiter off, is not modelled.
- Storage: rename is atomic, temporary names are new and differ from every path, and only
  process crashes are covered, as the code does not sync. Modes and directories are not
  modelled, nor read errors other than a missing file.
- `session.Load` and the JSON form of a session.
- The full HTML entity table: escaped text uses only the four entities that are modelled
  (Text.AmpersandsAreEntities). Text that was not escaped so, and invalid UTF-8, is not
  covered.
- The conversion of a float outside the integers to int64 is the platform's; each JSON
  number carries its result. A nil and an empty list of user ids are not told apart.
- `time.Now` in typing events is the symbolic value Now.
- Login's listener and browser flow, AuthorizeURL, UserInfo, Revoke, messages.go,
  parameters, execute and logging: thin wrappers.
