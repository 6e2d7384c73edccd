# Anti-phishing app core, modelled in Dafny

This project models the decision logic of an Android anti-phishing assistant and proves properties of that model. The app streams call audio to a transcription server over a WebSocket, raises a notification when the server reports a phishing alert, highlights risky keywords in SMS messages, and logs users in by e-mail or by Kakao/Naver OAuth.

Each Kotlin component becomes one Dafny module of immutable datatypes and pure step functions. Android callbacks, coroutine completions, timer ticks and network answers are events or inputs.

- `RealtimeRepository`: the transcription WebSocket session. It is a state machine over the fields `client`, `webSocket`, `isConnected` and `pingJob`, with an append-only log of every frame handed to a socket. Close code 1000 is "normal closure" in section 7.4.1 of RFC 6455.
- `RealtimeCallService`: the foreground service that opens its own stream socket, checks the microphone permission, builds and starts the recorder, forwards positive reads as buffer prefixes, turns `phishing_alert` text into a notification, and tears down in a fixed order inside one `try`. The chunks go to the service's own `RealtimeRepository`, on which nothing calls `connect`, and never onto the socket the service opens (see "## Left out").
- `CallReceiver`: maps the telephony state to a popup, a service start, a service stop, or nothing.
- `RealtimeScreen`: the start/stop toggle and the message card.
- `ApiClient`: derives the ws/wss base from the http(s) base (section 3 of RFC 6455) and joins a base and a path with one slash.
- `SmsHighlight` (`SmsListScreen.kt`):
  - the keyword list, held as a subset type of strings free of regex metacharacters;
  - `isRisky`;
  - the `findAll` of the keyword alternation;
  - the plain/highlighted segmentation.
- `AuthRepository`: the token store, the plain preference store, `getMe` and the social code exchange.
- `SocialLogin` (`SocialLoginViewModel.kt`): the authorization URLs and the redirect handling, including the OAuth `state` check of section 10.12 of RFC 6749.
- View models: `LoginViewModel`, `SaltKeeper`, `AnalysisViewModel`, `VoiceAnalysisViewModel`.
- Result screens:
  - `ImageUploadResult` and `VoiceUploadResult` model the risk bands, the items box and the button colours.
  - The voice screen's `VoiceSuspiciousItemsBox` (VoiceUploadResultScreen.kt:192-241) draws the same rows as the image screen's box, so `ImageUploadResult.SuspiciousItemsBox` models both.

Shared helpers:
- `Wrappers`: `Option` and `Result`, and a `byte` newtype.
- `Text`: Kotlin's `startsWith`, `contains`, `replaceFirst`, `removePrefix`, `removeSuffix` and `isBlank`.
- `Messages`: the `RealtimeMessage` record.

Behaviour of the streaming code worth knowing:
- **Connect guard.** `connect` is guarded only by `isConnected`, so a second call before `onOpen` opens a second socket (`SecondConnectNotSuppressed`). A state that is connected but has no socket is then reachable (`ConnectedWithoutSocket`).
- **Teardown after a failure.** A throwing call in `onDestroy` skips every later call of the `try` block: a throwing `stop()` skips `release`, `cancel` and `close` (`FailingStopKeepsStreaming`, `DestroyOrdered`). No end-of-stream marker is sent.
- **A rejected buffer size.** `getMinBufferSize` returns -1 or -2 on error, and the `AudioRecord` constructor throws for a size below one byte or not a whole number of frames. Nothing catches that exception, so with the permission granted `onStartCommand` never returns START_STICKY, and the process ends with the socket already opened (`RejectedBufferNeverStreams`).
- **A second start.** Every OFFHOOK broadcast and every press of the start button sends `onStartCommand` again. Each start on a running instance overwrites `webSocket`, `audioRecord` and `recordJob`. The earlier socket stays open, the earlier recorder keeps recording and is never released, and `onDestroy` reaches only the latest ones (`SecondStartLeaks`, `EveryResourceAccounted`). The overwritten job ends with the latest recorder, since its loop reads the field. A start after `onDestroy` runs on a fresh instance and leaks nothing (`RestartLeaksNothing`).
- **Transport failure.** A transport failure in the call service is only logged; streaming goes on.
- **Unknown message types.** Nothing decodes an unknown `type` into an error variant. The screen shows the raw type as the card heading.

Other behaviour worth knowing:
- `wsUrl` strips a single leading slash only, so `wsUrl("/" + p) == wsUrl(p)` holds only when `p` does not itself start with "/" (`SecondLeadingSlashKept`).
- `exchangeCodeForToken` ignores its `isAutoLogin` parameter and always saves with auto-login on.
- The keyword list has 76 entries, and at one position the earliest-listed keyword wins: "검찰" is listed before "검찰청", so the longer word is never highlighted whole.
- The result-screen bands are monotone only within 0..100; 101 falls back to the low band.

## Model

| member | source | states |
|---|---|---|
| RealtimeRepository.Connect | app/src/main/java/com/example/antiphishingapp/feature/repository/RealtimeRepository.kt:24-35 | when connected nothing changes; otherwise exactly one new request for the transcription URL with the server's Origin, that socket becomes `webSocket`, the session is still not connected and no frame is sent |
| RealtimeRepository.OnOpen | app/src/main/java/com/example/antiphishingapp/feature/repository/RealtimeRepository.kt:37-51 | the session becomes connected and a new running ping job bound to the opened socket becomes the tracked one; nothing is sent |
| RealtimeRepository.CancelPing | app/src/main/java/com/example/antiphishingapp/feature/repository/RealtimeRepository.kt:129-133 | the tracked ping job is stopped and every other job is untouched |
| RealtimeRepository.Close | app/src/main/java/com/example/antiphishingapp/feature/repository/RealtimeRepository.kt:119-148 | afterwards not connected, no client, ping stopped; from connected the socket gets close code 1000 and is cleared; from not connected the socket is kept and nothing is sent |
| RealtimeRepository.SendPcm | app/src/main/java/com/example/antiphishingapp/feature/repository/RealtimeRepository.kt:89-99 | the state changes iff connected with a socket, and then only by one binary frame with the chunk on that socket |
| RealtimeRepository.SendText | app/src/main/java/com/example/antiphishingapp/feature/repository/RealtimeRepository.kt:104-115 | the state changes iff connected with a socket, and then only by one text frame on that socket |
| RealtimeRepository.OnText | app/src/main/java/com/example/antiphishingapp/feature/repository/RealtimeRepository.kt:54-63 | a parsed message is appended to the emitted messages and an unparseable one adds nothing; nothing else changes |
| RealtimeRepository.PingTick | app/src/main/java/com/example/antiphishingapp/feature/repository/RealtimeRepository.kt:42-51 | the state changes iff the job exists and is running, and then only by one "ping" text frame on the socket the job was launched for |
| RealtimeRepository.Step | app/src/main/java/com/example/antiphishingapp/feature/repository/RealtimeRepository.kt:54-85 | only `onOpen` can make the session connected; failure, closing and closed all act as `close`; binary and unparseable text change nothing |
| RealtimeRepository.LogsOnlyGrow | app/src/main/java/com/example/antiphishingapp/feature/repository/RealtimeRepository.kt:24-115 | no event removes a created socket, a sent frame or an emitted message: each log after a step extends the log before it |
| RealtimeRepository.StepValid | app/src/main/java/com/example/antiphishingapp/feature/repository/RealtimeRepository.kt:35-86 | every socket the state or the frame log refers to was created by a `connect` |
| RealtimeRepository.RunValid | app/src/main/java/com/example/antiphishingapp/feature/repository/RealtimeRepository.kt:24-148 | the same holds after any trace of valid events |
| RealtimeRepository.CloseIdempotent | app/src/main/java/com/example/antiphishingapp/feature/repository/RealtimeRepository.kt:119-126 | close after close is close |
| RealtimeRepository.NothingSentAfterClose | app/src/main/java/com/example/antiphishingapp/feature/repository/RealtimeRepository.kt:70-115 | after any close path, sending PCM or text changes nothing |
| RealtimeRepository.PcmInOrder | app/src/main/java/com/example/antiphishingapp/feature/repository/RealtimeRepository.kt:89-99 | while connected, N `sendPcm` calls append exactly N binary frames carrying the chunks in call order |
| RealtimeRepository.KeepalivePings | app/src/main/java/com/example/antiphishingapp/feature/repository/RealtimeRepository.kt:42-51 | n ticks of a running ping job append exactly n "ping" text frames on the socket the job was opened for |
| RealtimeRepository.MessagesEmitted | app/src/main/java/com/example/antiphishingapp/feature/repository/RealtimeRepository.kt:54-63 | a run of inbound text frames emits exactly the messages that parsed, in arrival order, and changes nothing else |
| RealtimeRepository.SecondConnectNotSuppressed | app/src/main/java/com/example/antiphishingapp/feature/repository/RealtimeRepository.kt:24-25 | two `connect` calls before `onOpen` create two sockets |
| RealtimeRepository.ConnectedWithoutSocket | app/src/main/java/com/example/antiphishingapp/feature/repository/RealtimeRepository.kt:119-143 | connect, connect, open, close, open ends connected with no socket, where sends are dropped |
| RealtimeCallService.StartStreaming | app/src/main/java/com/example/antiphishingapp/feature/realtime/RealtimeCallService.kt:49-100 | the stream socket is opened first and replaces `webSocket`, before the permission check; denied: only the socket opening and a self-stop are logged, with recorder and job as they were; granted with a buffer size the recorder rejects (below one byte or not whole 16-bit frames, as -1 and -2 are): the constructor throws after the socket was opened, and no recorder or job appears; granted otherwise: streaming from a microphone recorder at 16000 Hz, mono, PCM16, with the minimum buffer size, and the socket and recorder it overwrote are left stray while the running job it overwrote keeps looping on `audioRecord`; no chunk or alert |
| RealtimeCallService.OnStartCommand | app/src/main/java/com/example/antiphishingapp/feature/realtime/RealtimeCallService.kt:40-44 | goes foreground with id 1 and then opens the socket; returns START_STICKY exactly when the recorder constructor did not throw, and when it threw no mode is returned and the recorder and job are as before; denied never creates a recorder |
| RealtimeCallService.OnRead | app/src/main/java/com/example/antiphishingapp/feature/realtime/RealtimeCallService.kt:103-116 | a read is forwarded iff streaming, 0 < bytesRead and the send does not fail; the chunk is exactly the first bytesRead bytes, so it and the rest of the buffer make up the buffer; a failing send leaves everything as it was |
| RealtimeCallService.OnInbound | app/src/main/java/com/example/antiphishingapp/feature/realtime/RealtimeCallService.kt:58-67 | text containing "phishing_alert" anywhere shows exactly one alert with the fixed title and body; other text shows none |
| RealtimeCallService.Step | app/src/main/java/com/example/antiphishingapp/feature/realtime/RealtimeCallService.kt:40-157 | after an exception has ended the process nothing changes; a start ends it exactly when the permission is granted and the buffer size is rejected; a transport failure changes nothing; reads and inbound text never start or stop streaming; `onDestroy` ends the instance, so the next start finds every field null |
| RealtimeCallService.TeardownFollowsPlan | app/src/main/java/com/example/antiphishingapp/feature/realtime/RealtimeCallService.kt:150-157 | the teardown log is the original log followed by the planned effects: the steps whose receiver exists, up to the first throwing one |
| RealtimeCallService.PlanMembers | app/src/main/java/com/example/antiphishingapp/feature/realtime/RealtimeCallService.kt:150-154 | every planned step is one of the four, acts on a receiver that is present, and is not the throwing step |
| RealtimeCallService.PlanOrdered | app/src/main/java/com/example/antiphishingapp/feature/realtime/RealtimeCallService.kt:150-154 | planned steps keep the order of the `try` block |
| RealtimeCallService.DestroyOrdered | app/src/main/java/com/example/antiphishingapp/feature/realtime/RealtimeCallService.kt:148-157 | `onDestroy` appends stop, release, cancel, close in that order; a call is made exactly when its receiver is present and no present call up to it throws, so the throwing call and every later one are skipped and every present one before it runs |
| RealtimeCallService.OnDestroy | app/src/main/java/com/example/antiphishingapp/feature/realtime/RealtimeCallService.kt:148-157 | the log grows by exactly the planned teardown effects; teardown never reaches a stray socket, recorder or job, and keeps which fields are set |
| RealtimeCallService.TeardownFields | app/src/main/java/com/example/antiphishingapp/feature/realtime/RealtimeCallService.kt:150-153 | after teardown the recorder is stopped exactly when `stop()` was made, released exactly when `release()` was made, and the job cancelled exactly when `cancel()` was made |
| RealtimeCallService.DestroyInstance | app/src/main/java/com/example/antiphishingapp/feature/realtime/RealtimeCallService.kt:29-31 | after `onDestroy` the instance is gone and the next one starts with null fields; the socket is left open exactly when a present call threw; the recorder is left unreleased exactly when the throw came at `stop()` or `release()`, still recording only for `stop()`; and the instance's jobs go on looping exactly when `stop()` threw on a recording recorder |
| RealtimeCallService.DestroyPlanExactly | app/src/main/java/com/example/antiphishingapp/feature/realtime/RealtimeCallService.kt:150-156 | a teardown call is planned iff its receiver is present and no present call at or before its position throws |
| RealtimeCallService.DestroyCompletes | app/src/main/java/com/example/antiphishingapp/feature/realtime/RealtimeCallService.kt:150-154 | with every receiver present and no exception: exactly stop, release, cancel and close with 1000 "통화 종료", and streaming ends |
| RealtimeCallService.DestroyStopsStreaming | app/src/main/java/com/example/antiphishingapp/feature/realtime/RealtimeCallService.kt:148-157 | without an exception, streaming never survives `onDestroy` |
| RealtimeCallService.FailingStopKeepsStreaming | app/src/main/java/com/example/antiphishingapp/feature/realtime/RealtimeCallService.kt:150-157 | when `stop()` throws, nothing after it runs and the service goes on streaming; on Android `stop()` throws only for a recorder that `startRecording()` would already have rejected, so this states what the `try` block does, not a reachable platform state |
| RealtimeCallService.DeniedNeverStreams | app/src/main/java/com/example/antiphishingapp/feature/realtime/RealtimeCallService.kt:83-89 | if permission is never granted, no event sequence creates a recorder or sends a chunk |
| RealtimeCallService.RejectedBufferNeverStreams | app/src/main/java/com/example/antiphishingapp/feature/realtime/RealtimeCallService.kt:40-44 | with the permission but a rejected buffer size, after the start only the foreground and the socket opening are logged, no recorder or job exists, and no later event changes anything |
| RealtimeCallService.CrashedStays | app/src/main/java/com/example/antiphishingapp/feature/realtime/RealtimeCallService.kt:42 | once an exception has escaped `onStartCommand`, no later event changes the state |
| RealtimeCallService.SecondStartLeaks | app/src/main/java/com/example/antiphishingapp/feature/realtime/RealtimeCallService.kt:57-103 | after two permitted starts and an exception-free `onDestroy`, the first socket and the first recorder (still recording, never released) are stray; no job goes on, because stopping the held recorder ends the overwritten job's loop too; the instance's fields are cleared |
| RealtimeCallService.RestartLeaksNothing | app/src/main/java/com/example/antiphishingapp/feature/realtime/RealtimeCallService.kt:40-157 | the call cycle start, `onDestroy`, start leaves nothing stray and streams on a fresh instance |
| RealtimeCallService.DestroyStraysUnclosed | app/src/main/java/com/example/antiphishingapp/feature/realtime/RealtimeCallService.kt:150-154 | ending an instance strays its socket exactly when `close` was not made and its recorder exactly when `release` was not made, and strays only unreleased recorders |
| RealtimeCallService.DestroyReleasesHeld | app/src/main/java/com/example/antiphishingapp/feature/realtime/RealtimeCallService.kt:151-152 | with every receiver present and no exception, `onDestroy` releases the recorder `audioRecord` holds |
| RealtimeCallService.AccountedStep | app/src/main/java/com/example/antiphishingapp/feature/realtime/RealtimeCallService.kt:40-157 | one event keeps every created socket and recorder held by a field, closed or released by a teardown, or stray, and every stray or held recorder unreleased |
| RealtimeCallService.EveryResourceAccounted | app/src/main/java/com/example/antiphishingapp/feature/realtime/RealtimeCallService.kt:40-157 | over any event sequence, the sockets and recorders the log shows created are exactly those the live instance holds, plus those a teardown closed or released, plus the stray ones; stray recorders are unreleased |
| CallReceiver.OnReceive | app/src/main/java/com/example/antiphishingapp/receiver/CallReceiver.kt:14-49 | popup iff RINGING (extras type="call", new-task, single-top and clear-top flags), start iff OFFHOOK, stop iff IDLE, nothing for null or any other state |
| CallReceiver.ServiceFollowsCallState | app/src/main/java/com/example/antiphishingapp/receiver/CallReceiver.kt:19-49 | over any broadcast sequence the last service command is start iff the latest OFFHOOK/IDLE was OFFHOOK, stop iff it was IDLE, none iff there was neither |
| CallReceiver.RingingNeutral | app/src/main/java/com/example/antiphishingapp/receiver/CallReceiver.kt:22-32 | a RINGING or unrecognised broadcast never changes the last service command |
| CallReceiver.IdleAlwaysStops | app/src/main/java/com/example/antiphishingapp/receiver/CallReceiver.kt:44-48 | IDLE stops the service whatever came before |
| RealtimeScreen.Press | app/src/main/java/com/example/antiphishingapp/ui/screen/RealtimeScreen.kt:46-54 | a press flips listening; from idle it issues start-service then startSession, from listening stop-service then stopSession |
| RealtimeScreen.PressesAlternate | app/src/main/java/com/example/antiphishingapp/ui/screen/RealtimeScreen.kt:27-54 | after n presses from the initial screen, listening iff n is odd, and the commands strictly alternate starting with a start |
| RealtimeScreen.Label | app/src/main/java/com/example/antiphishingapp/ui/screen/RealtimeScreen.kt:61-64 | "탐지 중지" iff listening, "탐지 시작" iff not |
| RealtimeScreen.ButtonColor | app/src/main/java/com/example/antiphishingapp/ui/screen/RealtimeScreen.kt:56-58 | red 0xFFD32F2F iff listening |
| RealtimeScreen.ScreenBody | app/src/main/java/com/example/antiphishingapp/ui/screen/RealtimeScreen.kt:69-76 | a card iff there is a message; else "서버와 연결 중..." iff listening and "탐지 준비 중입니다." iff not |
| RealtimeScreen.CardContent | app/src/main/java/com/example/antiphishingapp/ui/screen/RealtimeScreen.kt:96-109 | heading and body for each message type, each null field falling back to its fixed text; an unknown type shows the raw type |
| RealtimeScreen.Background | app/src/main/java/com/example/antiphishingapp/ui/screen/RealtimeScreen.kt:82-86 | pink exactly for a phishing alert, light blue exactly for a transcription, grey exactly for any other type |
| RealtimeScreen.BackgroundMatchesHeading | app/src/main/java/com/example/antiphishingapp/ui/screen/RealtimeScreen.kt:82-108 | the card's background `when` and its content `when` classify every message the same way |
| ApiClient.WsBaseOf | app/src/main/java/com/example/antiphishingapp/network/ApiClient.kt:17-22 | https becomes wss and http becomes ws with the rest unchanged, the two cases are exclusive, and any other base is returned as is |
| ApiClient.WsBaseRoundTrip | app/src/main/java/com/example/antiphishingapp/network/ApiClient.kt:18-22 | mapping the ws(s) scheme back restores every http(s) base, so the rewrite loses nothing |
| ApiClient.JoinUrl | app/src/main/java/com/example/antiphishingapp/network/ApiClient.kt:25-29 | at most one trailing slash of the base and one leading slash of the path are dropped, and exactly one slash joins them |
| ApiClient.WsUrl | app/src/main/java/com/example/antiphishingapp/network/ApiClient.kt:25-29 | the path on "wss://antiphishingstt.p-e.kr" with exactly one slash between them, whether or not the path starts with one |
| ApiClient.LeadingSlashIgnored | app/src/main/java/com/example/antiphishingapp/network/ApiClient.kt:27-28 | `wsUrl("/" + p) == wsUrl(p)` for every p not starting with "/" |
| ApiClient.SecondLeadingSlashKept | app/src/main/java/com/example/antiphishingapp/network/ApiClient.kt:27 | "//x" and "/x" give different URLs: only one slash is stripped |
| ApiClient.WsBaseUrlValue | app/src/main/java/com/example/antiphishingapp/network/ApiClient.kt:14-22 | the configured base maps to "wss://antiphishingstt.p-e.kr/" |
| ApiClient.TranscriptionWsUrl | app/src/main/java/com/example/antiphishingapp/network/ApiClient.kt:31-33 | the transcription URL is "wss://antiphishingstt.p-e.kr/api/transcribe/ws?sr=16000&lang=ko-KR" |
| RealtimeCallService.StreamUrlIsWsUrl | app/src/main/java/com/example/antiphishingapp/feature/realtime/RealtimeCallService.kt:51 | the URL the service opens is `wsUrl` of its stream path under the configured base |
| SmsHighlight.NoMetaFromMeansLiteral | app/src/main/java/com/example/antiphishingapp/ui/screen/SmsListScreen.kt:255 | the character scan means no regex metacharacter occurs, so each keyword matches only itself |
| SmsHighlight.AnyContained | app/src/main/java/com/example/antiphishingapp/ui/screen/SmsListScreen.kt:70 | true iff some keyword of the list occurs in the content |
| SmsHighlight.IsRisky | app/src/main/java/com/example/antiphishingapp/ui/screen/SmsListScreen.kt:70 | an SMS is risky iff some listed keyword occurs in its content |
| SmsHighlight.FirstAt | app/src/main/java/com/example/antiphishingapp/ui/screen/SmsListScreen.kt:255 | the first-listed keyword occurring at a position, with no earlier-listed one occurring there |
| SmsHighlight.AlternationAt | app/src/main/java/com/example/antiphishingapp/ui/screen/SmsListScreen.kt:255 | the alternation matches at a position iff some keyword occurs there, and what it matches is a listed keyword |
| SmsHighlight.NextMatch | app/src/main/java/com/example/antiphishingapp/ui/screen/SmsListScreen.kt:256 | the leftmost match at or after a position; none iff the alternation matches nowhere after it |
| SmsHighlight.FindAll | app/src/main/java/com/example/antiphishingapp/ui/screen/SmsListScreen.kt:256-259 | the matches lie inside the text and do not overlap, left to right |
| SmsHighlight.FindAllLeftmost | app/src/main/java/com/example/antiphishingapp/ui/screen/SmsListScreen.kt:255-264 | each match is the alternation's match at its start; nothing matches before the first match, in any gap, or after the last; there are no matches iff nothing matches anywhere |
| SmsHighlight.FindAllTail | app/src/main/java/com/example/antiphishingapp/ui/screen/SmsListScreen.kt:255-259 | after the last match of `findAll` the alternation matches nowhere |
| SmsHighlight.Annotate | app/src/main/java/com/example/antiphishingapp/ui/screen/SmsListScreen.kt:257-269 | the segments concatenate back to the text and the highlighted ones are the matched texts in order; exactly: before each match the (possibly empty) plain text since the previous one, the match highlighted, and a final plain run only when text remains after the last match |
| SmsHighlight.HighlightedText | app/src/main/java/com/example/antiphishingapp/ui/screen/SmsListScreen.kt:243-273 | the rendered text equals the input; non-risky text is one plain run; risky text highlights exactly the `findAll` matches, each of them a listed keyword |
| SmsHighlight.ValuesInKeywords | app/src/main/java/com/example/antiphishingapp/ui/screen/SmsListScreen.kt:259-263 | every highlighted run is one keyword of the list |
| SmsHighlight.RiskyIffMatched | app/src/main/java/com/example/antiphishingapp/ui/screen/SmsListScreen.kt:70 | `isRisky` holds iff `findAll` finds at least one match, so risky text always shows a highlight |
| SmsHighlight.EarlierListedKeywordWins | app/src/main/java/com/example/antiphishingapp/ui/screen/SmsListScreen.kt:36-44 | where "검찰청" occurs, the alternation picks a keyword listed no later than "검찰", which comes first |
| AuthRepository.GetString | app/src/main/java/com/example/antiphishingapp/feature/repository/AuthRepository.kt:59 | `getString(key, null)` is non-null iff the key is stored, and then it is the stored value |
| AuthRepository.GetAccessToken | app/src/main/java/com/example/antiphishingapp/feature/repository/AuthRepository.kt:57-61 | null iff no access token is stored in the secure store, otherwise the stored token |
| AuthRepository.GetRefreshToken | app/src/main/java/com/example/antiphishingapp/feature/repository/AuthRepository.kt:63-65 | null iff no refresh token is stored in the secure store, otherwise the stored token |
| AuthRepository.GetValue | app/src/main/java/com/example/antiphishingapp/feature/repository/AuthRepository.kt:104-106 | null iff the key is not in the plain store, otherwise its value |
| AuthRepository.GetBoolean | app/src/main/java/com/example/antiphishingapp/feature/repository/AuthRepository.kt:71 | the stored flag, or the default when none is stored |
| AuthRepository.SaveTokens | app/src/main/java/com/example/antiphishingapp/feature/repository/AuthRepository.kt:47-54 | stores the auto-login flag as given, keeps every other string key, and never touches the plain store |
| AuthRepository.SaveThenGet | app/src/main/java/com/example/antiphishingapp/feature/repository/AuthRepository.kt:47-65 | after saving, both getters return the saved tokens |
| AuthRepository.IsAuthenticated | app/src/main/java/com/example/antiphishingapp/feature/repository/AuthRepository.kt:69-75 | true iff an access token is stored and a stored auto-login flag is true; an absent flag counts as false |
| AuthRepository.SaveTokensAuthenticates | app/src/main/java/com/example/antiphishingapp/feature/repository/AuthRepository.kt:47-75 | saving tokens authenticates exactly when auto-login was asked for |
| AuthRepository.ClearTokens | app/src/main/java/com/example/antiphishingapp/feature/repository/AuthRepository.kt:78-80 | no string or flag remains in the secure store, and the plain store is untouched |
| AuthRepository.ClearForgetsTokens | app/src/main/java/com/example/antiphishingapp/feature/repository/AuthRepository.kt:57-80 | after clearing, both getters return null and the user is not authenticated |
| AuthRepository.SaveValue | app/src/main/java/com/example/antiphishingapp/feature/repository/AuthRepository.kt:99-101 | neither the token store nor the plain store's flags change |
| AuthRepository.ClearValue | app/src/main/java/com/example/antiphishingapp/feature/repository/AuthRepository.kt:109-111 | neither the token store nor the plain store's flags change |
| AuthRepository.SaveThenGetValue | app/src/main/java/com/example/antiphishingapp/feature/repository/AuthRepository.kt:99-106 | a saved value is read back and every other key keeps its value |
| AuthRepository.ClearValueOnlyKey | app/src/main/java/com/example/antiphishingapp/feature/repository/AuthRepository.kt:104-111 | `clearValue` removes its key and only that key |
| AuthRepository.StoresIndependent | app/src/main/java/com/example/antiphishingapp/feature/repository/AuthRepository.kt:24-44 | token operations never change a plain value, and plain-value operations never change authentication |
| AuthRepository.GetMe | app/src/main/java/com/example/antiphishingapp/feature/repository/AuthRepository.kt:83-93 | no token: no request, null and no exception; otherwise the header "Bearer " + token; a transport failure throws to the caller exactly when a request is sent; the body is returned exactly for a successful answer |
| AuthRepository.ExchangeCodeForToken | app/src/main/java/com/example/antiphishingapp/feature/repository/AuthRepository.kt:115-145 | dispatch by provider; naver without state and unknown providers fail before any request; success iff a request was sent and answered successfully with a body, which is saved with auto-login on and returned; every failure saves nothing and carries its message data |
| AuthRepository.ExchangeAuthenticates | app/src/main/java/com/example/antiphishingapp/feature/repository/AuthRepository.kt:137-140 | a successful exchange leaves the user authenticated, whatever `isAutoLogin` was |
| SocialLogin.KakaoAuthUrl | app/src/main/java/com/example/antiphishingapp/feature/viewmodel/SocialLoginViewModel.kt:45-51 | the URL starts with the Kakao endpoint followed by "?" |
| SocialLogin.KakaoAuthUrlQuery | app/src/main/java/com/example/antiphishingapp/feature/viewmodel/SocialLoginViewModel.kt:45-51 | the URL is the endpoint and the query client_id, redirect_uri, response_type, scope, in that order |
| SocialLogin.KakaoAsksForCode | app/src/main/java/com/example/antiphishingapp/feature/viewmodel/SocialLoginViewModel.kt:46-50 | the Kakao request's response_type is "code", the authorization-code flow |
| SocialLogin.NaverUrl | app/src/main/java/com/example/antiphishingapp/feature/viewmodel/SocialLoginViewModel.kt:61-65 | the URL ends with "&state=" and the state it was given |
| SocialLogin.NaverAuthUrl | app/src/main/java/com/example/antiphishingapp/feature/viewmodel/SocialLoginViewModel.kt:54-66 | the state is saved under "naver_oauth_state", the token store is untouched, and the URL ends with "&state=" and that state |
| SocialLogin.NaverAuthUrlQuery | app/src/main/java/com/example/antiphishingapp/feature/viewmodel/SocialLoginViewModel.kt:61-65 | the URL is the endpoint and the query response_type=code, client_id, the encoded redirect_uri, state, in that order |
| SocialLogin.NaverStateSaved | app/src/main/java/com/example/antiphishingapp/feature/viewmodel/SocialLoginViewModel.kt:55-65 | the URL's state parameter is the value just saved for the callback |
| SocialLogin.HandleCallback | app/src/main/java/com/example/antiphishingapp/feature/viewmodel/SocialLoginViewModel.kt:77-121 | an error or a missing code gives false with no exchange and nothing changed; an unknown scheme likewise; a Kakao redirect exchanges its code as a Kakao code and gives true iff the answer is successful with a body; any exchange needs a code and no error; true iff an exchange got a successful response with a body |
| SocialLogin.KakaoLoginCompletes | app/src/main/java/com/example/antiphishingapp/feature/viewmodel/SocialLoginViewModel.kt:91-96 | a Kakao redirect with a code, whatever its state, that the server accepts exchanges that code, emits true and leaves the user authenticated |
| SocialLogin.AutoLoginArgumentIgnored | app/src/main/java/com/example/antiphishingapp/feature/repository/AuthRepository.kt:115-145 | the exchange's result does not depend on `isAutoLogin`, so the call sites that omit it lose nothing |
| SocialLogin.NaverExchangeIffStateMatches | app/src/main/java/com/example/antiphishingapp/feature/viewmodel/SocialLoginViewModel.kt:98-110 | a Naver code is exchanged iff the returned state is non-null and equals the saved one, and then with that code and state |
| SocialLogin.NaverStateConsumed | app/src/main/java/com/example/antiphishingapp/feature/viewmodel/SocialLoginViewModel.kt:100-101 | after a Naver redirect with a code, the saved state is gone, whatever the outcome |
| SocialLogin.ReplayRejected | app/src/main/java/com/example/antiphishingapp/feature/viewmodel/SocialLoginViewModel.kt:98-110 | handling the same Naver redirect twice: the second time nothing is exchanged and the result is false |
| SocialLogin.ForgedStateRejected | app/src/main/java/com/example/antiphishingapp/feature/viewmodel/SocialLoginViewModel.kt:103-109 | a state that differs from the saved one is refused before any request |
| SocialLogin.SuccessAuthenticates | app/src/main/java/com/example/antiphishingapp/feature/viewmodel/SocialLoginViewModel.kt:92-105 | emitting true means tokens were saved and the user is authenticated |
| SocialLogin.FailureKeepsTokens | app/src/main/java/com/example/antiphishingapp/feature/viewmodel/SocialLoginViewModel.kt:82-119 | emitting false leaves the token store as it was |
| SocialLogin.NaverLoginCompletes | app/src/main/java/com/example/antiphishingapp/feature/viewmodel/SocialLoginViewModel.kt:54-110 | building the Naver URL and then handling a redirect that carries its state and an accepted code emits true, exchanges that code and state, and authenticates |
| LoginViewModel.OnEmailChange | app/src/main/java/com/example/antiphishingapp/feature/viewmodel/LoginViewModel.kt:46 | the e-mail field holds the new value |
| LoginViewModel.OnPasswordChange | app/src/main/java/com/example/antiphishingapp/feature/viewmodel/LoginViewModel.kt:47 | the password field holds the new value |
| LoginViewModel.OnAutoLoginCheckedChange | app/src/main/java/com/example/antiphishingapp/feature/viewmodel/LoginViewModel.kt:51-53 | the auto-login field holds the new value |
| LoginViewModel.OnErrorShown | app/src/main/java/com/example/antiphishingapp/feature/viewmodel/LoginViewModel.kt:48 | the error is cleared |
| LoginViewModel.HandlersAreLocal | app/src/main/java/com/example/antiphishingapp/feature/viewmodel/LoginViewModel.kt:46-53 | each handler changes its own field and nothing else |
| LoginViewModel.Clicked | app/src/main/java/com/example/antiphishingapp/feature/viewmodel/LoginViewModel.kt:58-69 | blank (including whitespace-only) fields only set the fixed error; otherwise loading starts, the error is cleared and a request with the typed credentials is sent |
| LoginViewModel.Finish | app/src/main/java/com/example/antiphishingapp/feature/viewmodel/LoginViewModel.kt:71-99 | loading ends false on every path; loginSuccess becomes true iff it was already true or the answer was successful with a body |
| LoginViewModel.OnLoginClicked | app/src/main/java/com/example/antiphishingapp/feature/viewmodel/LoginViewModel.kt:58-100 | a blank field sends no request and changes nothing but the error, which becomes the fixed message; a filled form sends the typed credentials, ends with loading off, and either saved the tokens with no error (exactly for a successful answer with a body) or saved nothing and shows an error |
| LoginViewModel.FailureMessages | app/src/main/java/com/example/antiphishingapp/feature/viewmodel/LoginViewModel.kt:85-95 | the message for an exception, an empty body, and a refusal with or without an error body |
| LoginViewModel.RequestCarriesTypedCredentials | app/src/main/java/com/example/antiphishingapp/feature/viewmodel/LoginViewModel.kt:46-73 | the request carries the last e-mail and password typed |
| LoginViewModel.InitialFormRefused | app/src/main/java/com/example/antiphishingapp/feature/viewmodel/LoginViewModel.kt:24-66 | the initial empty form is refused without a request |
| SaltKeeper.GetSalt | app/src/main/java/com/example/antiphishingapp/utils/SaltKeeper.kt:26-31 | a stored salt is returned with the store unchanged; otherwise the drawn value is stored and returned; afterwards the store holds exactly the returned salt and every other key is kept |
| SaltKeeper.SaltIsStable | app/src/main/java/com/example/antiphishingapp/utils/SaltKeeper.kt:13-31 | a second call returns the first call's salt and changes nothing |
| SaltKeeper.EveryCallAgrees | app/src/main/java/com/example/antiphishingapp/utils/SaltKeeper.kt:13-31 | any number of calls all return the salt of the first call |
| AnalysisViewModel.Apply | app/src/main/java/com/example/antiphishingapp/feature/viewmodel/AnalysisViewModel.kt:25-47 | a request sets loading and clears the error but keeps the result; an answer ends loading and sets the result but keeps the error; a failure ends loading and sets the message or the fallback but keeps the result; reset clears result and error but not loading |
| AnalysisViewModel.LoadingTracksLastRequest | app/src/main/java/com/example/antiphishingapp/feature/viewmodel/AnalysisViewModel.kt:25-39 | over any event sequence, loading is on iff the latest request, answer or failure was a request |
| AnalysisViewModel.Step | app/src/main/java/com/example/antiphishingapp/feature/viewmodel/AnalysisViewModel.kt:36-39 | a failure without a message shows "분석 실패" |
| AnalysisViewModel.AnalyzeKeepsPreviousResult | app/src/main/java/com/example/antiphishingapp/feature/viewmodel/AnalysisViewModel.kt:25-27 | a new request keeps showing the previous result while loading |
| AnalysisViewModel.ResetAfterAnswer | app/src/main/java/com/example/antiphishingapp/feature/viewmodel/AnalysisViewModel.kt:16-47 | reset after an answer or a failure returns to the initial values |
| VoiceAnalysisViewModel.Step | app/src/main/java/com/example/antiphishingapp/feature/viewmodel/VoiceAnalysisViewModel.kt:30-44 | an answer ends loading with the body or "결과 없음"; an error ends loading with the message or "알 수 없는 오류 발생" and keeps the result; a request sets loading and clears the error |
| VoiceAnalysisViewModel.ResultPersists | app/src/main/java/com/example/antiphishingapp/feature/viewmodel/VoiceAnalysisViewModel.kt:37-40 | once a result is shown, no later event makes it null |
| VoiceAnalysisViewModel.RunIsSharedRun | app/src/main/java/com/example/antiphishingapp/feature/viewmodel/VoiceAnalysisViewModel.kt:30-44 | the voice view model is the document view model with its own fallbacks |
| VoiceAnalysisViewModel.LoadingIffLastIsRequest | app/src/main/java/com/example/antiphishingapp/feature/viewmodel/VoiceAnalysisViewModel.kt:30-44 | loading is on iff the latest event is a request |
| ImageUploadResult.BandOf | app/src/main/java/com/example/antiphishingapp/ui/screen/ImageUploadResultScreen.kt:76-80 | high iff 70..100, medium iff 45..69, low iff below 45 or above 100 |
| ImageUploadResult.BandMonotone | app/src/main/java/com/example/antiphishingapp/ui/screen/ImageUploadResultScreen.kt:76-80 | within 0..100 a higher score never gets a lower band |
| ImageUploadResult.BandWrapsAbove100 | app/src/main/java/com/example/antiphishingapp/ui/screen/ImageUploadResultScreen.kt:76-79 | 100 is high but 101 is low |
| ImageUploadResult.Verdict | app/src/main/java/com/example/antiphishingapp/ui/screen/ImageUploadResultScreen.kt:76-80 | the high text iff the high band, the low text iff the low band, each with its own description |
| ImageUploadResult.SuspiciousItemsBox | app/src/main/java/com/example/antiphishingapp/ui/screen/ImageUploadResultScreen.kt:237-282 | only the placeholder iff there are no items; otherwise 2n-1 rows, item j at row 2j and a gap after every item but the last |
| ImageUploadResult.ButtonColors | app/src/main/java/com/example/antiphishingapp/ui/screen/ImageUploadResultScreen.kt:300-303 | dark container iff pressed or hovered, light content iff pressed or hovered, never the same colour twice |
| ImageUploadResult.ActiveButtonInverts | app/src/main/java/com/example/antiphishingapp/ui/screen/ImageUploadResultScreen.kt:300-303 | the active container colour is the idle content colour |
| VoiceUploadResult.VoiceVerdict | app/src/main/java/com/example/antiphishingapp/ui/screen/VoiceUploadResultScreen.kt:38-42 | the voice texts for the high, medium and low score ranges |
| VoiceUploadResult.SameBandsAsImageScreen | app/src/main/java/com/example/antiphishingapp/ui/screen/VoiceUploadResultScreen.kt:38-42 | the voice screen and the document screen draw their band boundaries at the same scores |
| VoiceUploadResult.Sections | app/src/main/java/com/example/antiphishingapp/ui/screen/VoiceUploadResultScreen.kt:101-131 | the risk header first, then the transcript section iff the transcript is non-empty, then the items and the retry prompt |
| VoiceUploadResult.TranscriptOnlyAddsItsSection | app/src/main/java/com/example/antiphishingapp/ui/screen/VoiceUploadResultScreen.kt:101-131 | a non-empty transcript adds its own section and changes no other section or their order |

## Left out

- Compose layout, styling, navigation and the screens without decision logic: TitleScreen, LoginScreen, MainScreen, AnalysisScreen, AppNavGraph, Theme, MessageAlertCard, PhoneAlertCard and AlertActivity. The theme's colour values are not part of the model either, so the result button's colours are named, not valued.
- Score colour interpolation (`calculateScoreColor`, `calculateVoiceScoreColor`): it is floating-point arithmetic inside the Compose `lerp`.
- OkHttp, Retrofit and AudioRecord are left out:
  - A request is recorded as a value, and its answer is an input.
  - A microphone read is an event carrying the byte count.
  - The permission check is a boolean input.
  - A notification is an effect in the service log.
- EncryptedSharedPreferences and SharedPreferences: each file is a map. Encryption, and the asynchronous disk write of `apply()`, are not modelled; a write is visible at once.
- Random and encoded values are inputs: `generateNaverState` (SecureRandom and Base64), `URLEncoder.encode` and `UUID.randomUUID`.
- Gson parsing is an input of type `Option`, where None means the parse threw.
- Coroutines, SharedFlow emission and real time:
  - Callbacks are sequential events.
  - The 15-second ping loop is a tick event.
  - A login request is split into its click and its completion.
  - Overlapping requests and interleaved callbacks are not modelled.
- The `init` block of SocialLoginViewModel reads `SocialLoginCallbackHandler`, which is not part of this model. The URI it hands over is handled by the same `HandleCallback`.
- Logging calls (`Log.d` and the rest) have no observable effect and are dropped.
- WebSocketClient.kt and RealtimeViewModel.kt are divergent duplicate variants that call functions RealtimeRepository does not define.
- Thin Retrofit wrappers: both AnalysisRepository files, VoiceRepository, FileUtils and ApiService.
- SmsReceiver's work is in a sanitizer and network calls that are not shown. SignUpViewModel holds only setters and a TODO.
- SmsListScreen's sample messages and list layout.
- Call sites whose signature does not match the callee are abstract effects:
  - LoginViewModel.kt:81 calls `saveTokens` with one argument, so the model records the tokens handed over in `saved`.
  - RealtimeCallService.kt:111 calls `sendAudioChunk`, which does not exist, so the model records a chunk effect.
  - SocialLoginViewModel.kt:94 and SocialLoginViewModel.kt:104 omit `isAutoLogin`. The model passes a value, which `AutoLoginArgumentIgnored` shows is immaterial.
- LoginViewModel's `_email.value ?: return` guards cannot fire, because both fields start as "" and are only ever set to strings; the model's fields are plain strings.
- `SuspiciousItem.isCritical` is carried but does not change how an item is drawn.
- HandleCallback: a network exception thrown inside the exchange is represented by a non-successful response. Both are caught, emit false and save nothing.
- OnRead: the chunk goes to the service's own `RealtimeRepository`, and nothing in the service calls `connect` on it. Had the call been `sendPcm`, the guard at RealtimeRepository.kt:90 would drop every chunk as "not connected". The socket the service opens itself never carries audio. The model records the hand-over as a chunk effect and does not follow it into the repository.
- StartStreaming: a recorder whose native initialisation fails makes `startRecording()` throw. The model treats every recorder built with an accepted buffer size as initialised. An overwritten job's loop reads the `audioRecord` field, which now holds the newer recorder; the model counts such jobs but does not interleave their reads, and reads of jobs that outlive their instance are not modelled.
- OnText: each emission runs in its own coroutine on the IO dispatcher, so subscribers may see messages in a different order; the model logs them in arrival order. Gson returns null for an empty text, and such a null emission is not modelled.
- `TokenResponse` and `UserResponse` are declared outside the files modelled. A token response is two strings; the user body is a type parameter.
