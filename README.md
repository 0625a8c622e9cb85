# GoddessGPT UI core, modelled in Dafny

GoddessGPT is a Next.js chat front end for women's health, legal and
wellness questions. Under its pages sit a few pieces of sequential logic,
and this project models them and proves what they promise:

- the chat WebSocket client: connection states, bounded exponential
  backoff, a handler registry, the outgoing envelope, and mock mode's
  keyword-chosen replies;
- the chat transcript reducer and the send guard of the main chat screen;
- the route guard run by the Next.js middleware;
- the bounded image upload list;
- the community feed: like and post;
- the older companion chat and its keyword replies;
- the specialist (doctor / lawyer / psychiatrist) chat;
- the message-id and date-label helpers;
- the authentication, chat and sidebar React contexts.

Each module follows one source file. Pure logic in the source (list
transforms, if-chains, string building) becomes functions with lemmas.
State that the source changes through React setters or class fields
becomes a `class` whose methods change exactly those fields.

Outside events are parameters or methods the environment calls:

- Each pending `setTimeout` is an entry of the client's `timers`, fired by
  `Tick`. Delayed replies of the chat screens are queues resolved by
  `ResolveReply`.
- Socket callbacks are the methods `OnOpen`, `OnError`, `OnClose` and
  `OnMessage`. Like the source's closures, they can arrive from a socket
  the client already replaced or closed.
- `Date.now()` is a `nat`. `Math.random().toString(36)` and `nanoid()`
  are strings.
- `JSON.parse` / `JSON.stringify` are function parameters, and
  `localStorage` is a `map<string, string>`.

Shared modules:

- `Wrappers`: `Option` and `Outcome`.
- `Js`: the JavaScript string semantics the code relies on. These are
  truthiness and `||`, `startsWith`, `includes`, ASCII `toLowerCase`,
  `trim` over the ECMAScript white-space set, `substring` with its
  clamping and swapping, `slice` with negative ends, and
  `Number.prototype.toString(radix)`.
- `ChatTypes`: the records of `src/types/index.ts`.
- `KeywordMatch`: a first-match classifier, the reference definition for
  both canned-reply if-chains.

Behaviour the proofs bring out:

- In `handleWebSocketMessage` the "thinking" test `m.type === 'message' &&
  !m.type` can never hold, so a `message` envelope is always appended
  (`ChatTranscript.MessageAlwaysAppends`). A full mock exchange of four
  envelopes therefore leaves the "processing" entry in the transcript, next
  to the real reply marked complete (`ChatTranscript.MockExchange`).
- `disconnect` does not stop reconnection. The closed socket's `onclose`
  still reaches `attemptReconnect` (`WebSocketClient.DisconnectStillReconnects`).
  A client the chat context dropped on sign-out can therefore schedule its own
  reconnect (`ChatContext.SignOutLeavesReconnect`).
- In the companion chat, `"period pain"` can never decide a branch, and
  `"hi"` matches inside words such as "this".
- In the specialist chat, a reply still pending when the specialist is
  changed lands in the new specialist's transcript, naming the old one
  (`SpecialistChat.StaleReplyAfterChange`).
- `complete` marks the last assistant entry, and status entries are
  assistant entries too. When `complete` follows a status update directly,
  the status entry is the one marked, the filter no longer removes it, and
  its text stays while the reply before it is never marked
  (`ChatTranscript.CompleteAfterStatusKeepsStatusText`).
- A stored user string `null` parses without error, so a reload gives an
  authenticated session with no user (`AuthContext.ReloadWithNullUser`).
- A message id is exactly 32 characters only when the random parts are
  long enough. `Math.random().toString(36)` can be short, and then the id
  is shorter.
- The middleware's prefix test alone would protect `/chatroom`. The
  exported matcher keeps such paths from reaching it.

## Model

| member | source | states |
|---|---|---|
| WebSocketClient.BackoffSchedule | src/lib/websocket-client.ts:248-249 | for attempts 1..5 the delay 1000·2^(n−1) is exactly the n-th of 1000, 2000, 4000, 8000, 16000, so it never exceeds 16000 |
| WebSocketClient.BackoffDoubles | src/lib/websocket-client.ts:249 | each further attempt doubles the delay |
| WebSocketClient.Client.constructor | src/lib/websocket-client.ts:12-28 | a fresh client is DISCONNECTED with 0 attempts, no socket, no handlers, no timers, and ids built from two separate clock readings and two random strings |
| WebSocketClient.Client.Connect | src/lib/websocket-client.ts:33-39 | mock mode moves to CONNECTING with a 500 ms timer; real mode gives CONNECTING and a socket, or ERROR when the socket constructor throws; attempts and handlers unchanged |
| WebSocketClient.Client.ConnectReal | src/lib/websocket-client.ts:44-83 | CONNECTING with a new socket, or ERROR when construction throws; timers and attempts unchanged |
| WebSocketClient.Client.ConnectMock | src/lib/websocket-client.ts:89-100 | CONNECTING, one 500 ms connect timer added, nothing else changes |
| WebSocketClient.Client.OnOpen | src/lib/websocket-client.ts:51-56 | CONNECTED and the attempt counter reset to 0 |
| WebSocketClient.Client.OnError | src/lib/websocket-client.ts:67-71 | ERROR, everything else unchanged |
| WebSocketClient.Client.OnClose | src/lib/websocket-client.ts:73-78 | DISCONNECTED, then exactly the effect of `attemptReconnect` |
| WebSocketClient.Client.OnMessage | src/lib/websocket-client.ts:58-65 | a parse failure delivers nothing; a parsed envelope reaches every registered handler |
| WebSocketClient.Client.AttemptReconnect | src/lib/websocket-client.ts:242-256 | at 5 or more attempts nothing changes; otherwise the counter rises by exactly one and one reconnect timer with delay 1000·2^(n−1) is added; the counter stays ≤ 5 |
| WebSocketClient.Client.ForceReconnect | src/lib/websocket-client.ts:261-265 | the counter is 0 afterwards and the connection restarts as `connect` does |
| WebSocketClient.Client.Disconnect | src/lib/websocket-client.ts:270-276 | no socket and DISCONNECTED, counter and timers unchanged |
| WebSocketClient.Client.Envelope | src/lib/websocket-client.ts:113-121 | message and message id as passed, the client's thread id, optional fields copied unchanged |
| WebSocketClient.Client.SendMessage | src/lib/websocket-client.ts:105-188 | mock mode schedules the four replies at 300/800/1500/2000 ms; otherwise the envelope is transmitted iff a socket exists and is open |
| WebSocketClient.Client.HandleMessage | src/lib/websocket-client.ts:214-216 | the deliveries are exactly one per registered handler |
| WebSocketClient.Deliveries | src/lib/websocket-client.ts:214-216 | a delivery is in the set iff its handler is registered and it carries the message |
| WebSocketClient.Client.RegisterMessageHandler | src/lib/websocket-client.ts:221-222 | the handler set gains exactly that handler |
| WebSocketClient.Client.UnregisterMessageHandler | src/lib/websocket-client.ts:223 | the handler set loses exactly that handler |
| WebSocketClient.Client.Tick | src/lib/websocket-client.ts:95-255 | firing a timer removes it and runs its callback: reconnect calls `connect`, the mock connect timer gives CONNECTED, a mock reply reaches every handler |
| WebSocketClient.GenerateMockResponseFirstMatch | src/lib/websocket-client.ts:193-209 | the if-chain over the lower-cased message returns the reply of the first matching keyword group, else the default |
| WebSocketClient.GenerateMockResponse | src/lib/websocket-client.ts:193-209 | the reply is always one of the four canned replies |
| WebSocketClient.KeywordGroupsAreTheTests | src/lib/websocket-client.ts:196-206 | each keyword group matches iff the corresponding `includes` disjunction holds |
| WebSocketClient.MockReplies | src/lib/websocket-client.ts:147-187 | four envelopes, the third carrying the keyword reply to the user's message |
| WebSocketClient.GenerateClientId | src/lib/websocket-client.ts:302-304 | starts with `client_`, bounded length |
| WebSocketClient.GenerateThreadId | src/lib/websocket-client.ts:309-311 | starts with `thread_`, bounded length |
| WebSocketClient.DisconnectStillReconnects | src/lib/websocket-client.ts:270-276 | after open, disconnect and the late close event, a 1000 ms reconnect is pending |
| KeywordMatch.FirstMatch | src/lib/websocket-client.ts:196-208 | the result is the first group with a keyword in the text, or the group count when none matches |
| ChatTranscript.EntryFor | src/components/chat/chat-interface.tsx:71-79 | an assistant entry with the envelope's type and component type; content is `content`, else `message`, else empty |
| ChatTranscript.FindLastIndex | src/components/chat/chat-interface.tsx:85-87 | −1 or an index satisfying the predicate with no later index satisfying it |
| ChatTranscript.ReplaceLastOrAppend | src/components/chat/chat-interface.tsx:84-107 | the new entry is in the result; entries failing the test keep their places; it is appended iff no entry passes the test, otherwise the last passing entry is replaced |
| ChatTranscript.MarkLastAssistantComplete | src/components/chat/chat-interface.tsx:117-128 | same length; only the type of an entry can change; the last assistant entry becomes `complete`, and no other entry changes |
| ChatTranscript.HandleWebSocketMessage | src/components/chat/chat-interface.tsx:80-146 | at most one entry is added; `error`, `complete` and `human_intervention` clear loading and the other kinds keep it; every kind but `complete` and unknown leaves its new entry in the transcript; `complete` leaves no status entry; an unknown type changes nothing |
| ChatTranscript.MessageAlwaysAppends | src/components/chat/chat-interface.tsx:84-95 | a `message` envelope always appends exactly one entry |
| ChatTranscript.StatusReplacesLast | src/components/chat/chat-interface.tsx:100-108 | a `status` envelope replaces the last status entry in place, or appends when there is none |
| ChatTranscript.AppendingKinds | src/components/chat/chat-interface.tsx:111-145 | `error` and `human_intervention` append and clear loading; `ui_component` appends only; an unknown type changes nothing |
| ChatTranscript.WithoutStatus | src/components/chat/chat-interface.tsx:131 | no status entry remains, nothing is added, and an entry is in the result iff it is in the input and is not a status entry |
| ChatTranscript.WithoutStatusAppend | src/components/chat/chat-interface.tsx:131 | dropping status entries distributes over concatenation |
| ChatTranscript.WithoutStatusSingle | src/components/chat/chat-interface.tsx:131 | one entry is kept iff it is not a status entry, so with the append lemma the kept entries stay in order |
| ChatTranscript.WithoutStatusKeeps | src/components/chat/chat-interface.tsx:131 | a transcript without status entries is kept as it is |
| ChatTranscript.CompleteMarksAndClears | src/components/chat/chat-interface.tsx:116-133 | for every transcript `complete` clears loading and leaves the status-free filter of the transcript with its last assistant entry, if any, marked `complete`; without status entries only that entry changes |
| ChatTranscript.CompleteAfterStatusKeepsStatusText | src/components/chat/chat-interface.tsx:116-131 | `complete` right after a status update marks the status entry `complete`, so the status text survives the filter and the reply before it stays unmarked |
| ChatTranscript.AtMostOneStatusPreserved | src/components/chat/chat-interface.tsx:81-146 | every envelope keeps the transcript at no more than one status entry |
| ChatTranscript.FilteredStatusCountZero | src/components/chat/chat-interface.tsx:131 | after the filter the status count is 0 |
| ChatTranscript.MockExchange | src/components/chat/chat-interface.tsx:81-146 | the four mock envelopes leave the transcript grown by the processing entry and the reply marked complete, with loading off |
| ChatTranscript.ChatInterface.constructor | src/components/chat/chat-interface.tsx:22-26 | empty transcript and input, not loading, first placeholder, near the bottom |
| ChatTranscript.ChatInterface.OnIncoming | src/components/chat/chat-interface.tsx:70-147 | the component state moves exactly as the reducer says |
| ChatTranscript.ChatInterface.HandleSendMessage | src/components/chat/chat-interface.tsx:150-179 | no-op without text or outside CONNECTED; otherwise one user entry of type `complete`, the send request, input cleared, loading on |
| ChatTranscript.PlaceholderCycles | src/components/chat/chat-interface.tsx:42-45 | after n ticks the placeholder index is n mod 5 |
| ChatTranscript.ChatInterface.RotatePlaceholder | src/components/chat/chat-interface.tsx:44 | the index advances modulo 5 and stays below 5 |
| ChatTranscript.ChatInterface.HandleScroll | src/components/chat/chat-interface.tsx:62-67 | without a container nothing changes; otherwise "near bottom" iff the distance from the bottom is below 150 |
| RouteGuard.Middleware | goddessgpt-ui/middleware.ts:4-33 | redirect to `/` iff unauthenticated on a protected prefix outside development; redirect to `/chat` iff authenticated on exactly `/`; otherwise next |
| RouteGuard.ProtectedPrefixes | goddessgpt-ui/middleware.ts:11-14 | protected means starting with `/chat` or `/community` |
| RouteGuard.AuthenticatedKeepsProtectedPages | goddessgpt-ui/middleware.ts:14-32 | an authenticated user is never redirected from a protected path |
| RouteGuard.DevelopmentOnlyRedirectsHome | goddessgpt-ui/middleware.ts:14-30 | in development the only redirect is authenticated `/` to `/chat` |
| RouteGuard.OtherwiseNext | goddessgpt-ui/middleware.ts:32 | every request outside the two redirect cases passes through |
| RouteGuard.Handle | goddessgpt-ui/middleware.ts:35-37 | paths outside the matcher pass through without the guard |
| RouteGuard.MatchedProtectedAreSections | goddessgpt-ui/middleware.ts:35-37 | among matched paths, protected ones are exactly `/chat`, `/community` and the paths below them |
| RouteGuard.PrefixQuirk | goddessgpt-ui/middleware.ts:14-36 | `/chatroom` passes the prefix test but never reaches the guard |
| ImageUpload.AcceptFiles | src/components/ui/image-upload.tsx:21-23 | every kept file is an image of at most 5 MiB, every such input file is kept, nothing else appears |
| ImageUpload.AcceptFilesKeepsAccepted | src/components/ui/image-upload.tsx:21-23 | a list of acceptable files passes unchanged, in order |
| ImageUpload.AcceptFilesSingle | src/components/ui/image-upload.tsx:21-23 | one file is kept iff it is an image of at most 5 MiB |
| ImageUpload.AcceptFilesAppend | src/components/ui/image-upload.tsx:21-23 | the filter distributes over concatenation, so kept files keep their input order |
| ImageUpload.Merge | src/components/ui/image-upload.tsx:25 | a prefix of old ++ new of length exactly min(length of old ++ new, maxImages), or that length plus a negative maxImages as `slice` counts from the end; it keeps the old list when it fits |
| ImageUpload.MergeOverflow | src/components/ui/image-upload.tsx:25 | on overflow the list is exactly the first maxImages files of old ++ new |
| ImageUpload.RemoveAt | src/components/ui/image-upload.tsx:50-51 | one element fewer for an index in range, the same list otherwise |
| ImageUpload.RemoveAtShifts | src/components/ui/image-upload.tsx:51 | earlier elements keep their places, later ones move down one, exactly the indexed element is gone |
| ImageUpload.ImageUploader.constructor | src/components/ui/image-upload.tsx:13-15 | empty list, not dragging, maxImages defaults to 4 |
| ImageUpload.ImageUploader.HandleFileSelect | src/components/ui/image-upload.tsx:18-28 | a null list changes nothing; otherwise the list becomes the merge and the callback gets exactly it |
| ImageUpload.ImageUploader.RemoveImage | src/components/ui/image-upload.tsx:50-54 | the list loses the indexed element and the callback gets exactly the stored list |
| ImageUpload.ImageUploader.HandleDrop | src/components/ui/image-upload.tsx:30-34 | dragging stops and the dropped files are selected |
| ImageUpload.ImageUploader.HandleDragOver | src/components/ui/image-upload.tsx:36-39 | dragging |
| ImageUpload.ImageUploader.HandleDragLeave | src/components/ui/image-upload.tsx:41-44 | not dragging |
| CommunityFeed.LikePost | goddessgpt-ui/components/community/CommunityChat.tsx:144-150 | same length; matching posts gain one like and nothing else; other posts unchanged |
| CommunityFeed.LikePostTotal | goddessgpt-ui/components/community/CommunityChat.tsx:144-150 | the total like count rises by the number of posts with that id |
| CommunityFeed.AuthorName | goddessgpt-ui/components/community/CommunityChat.tsx:125 | the user name when non-empty, else `Anonymous` |
| CommunityFeed.CommunityChat.constructor | goddessgpt-ui/components/community/CommunityChat.tsx:26-29 | no posts, empty input, not posting |
| CommunityFeed.CommunityChat.HandleLikePost | goddessgpt-ui/components/community/CommunityChat.tsx:144-150 | the feed becomes the liked feed |
| CommunityFeed.CommunityChat.HandlePostMessage | goddessgpt-ui/components/community/CommunityChat.tsx:110-141 | blank input changes nothing; otherwise one post with the untrimmed input, 0 likes, 0 replies; input empty and not posting afterwards |
| CompanionChat.GetMockResponseFirstMatch | goddessgpt-ui/components/chat/ChatInterface.tsx:92-111 | the if-chain returns the reply of the first matching keyword group in fixed order, else the default |
| CompanionChat.GetMockResponse | goddessgpt-ui/components/chat/ChatInterface.tsx:92-111 | the reply is always one of the eight canned replies |
| CompanionChat.WelcomeText | goddessgpt-ui/components/chat/ChatInterface.tsx:40 | the welcome starts with `Welcome, <name>!` |
| CompanionChat.CompanionChat.SetInput | goddessgpt-ui/components/chat/ChatInterface.tsx:181 | the input becomes the typed value |
| CompanionChat.KeywordGroupsAreTheTests | goddessgpt-ui/components/chat/ChatInterface.tsx:95-107 | each keyword group matches iff the corresponding `includes` disjunction holds |
| CompanionChat.PeriodPainRedundant | goddessgpt-ui/components/chat/ChatInterface.tsx:103 | any input containing "period pain" already contains "pain" |
| CompanionChat.GreetingOnAnyHi | goddessgpt-ui/components/chat/ChatInterface.tsx:107 | "hi" anywhere, after no earlier group, gives the greeting |
| CompanionChat.CompanionChat.constructor | goddessgpt-ui/components/chat/ChatInterface.tsx:21-23 | empty transcript and input, not loading, no reply pending |
| CompanionChat.CompanionChat.Welcome | goddessgpt-ui/components/chat/ChatInterface.tsx:35-45 | the welcome is inserted only into an empty transcript |
| CompanionChat.CompanionChat.HandleSendMessage | goddessgpt-ui/components/chat/ChatInterface.tsx:52-67 | blank input changes nothing; otherwise one user message with the untrimmed input, input cleared, loading on, a reply to that input pending |
| CompanionChat.CompanionChat.ResolveReply | goddessgpt-ui/components/chat/ChatInterface.tsx:71-88 | one assistant message with the reply to the captured input, loading off |
| SpecialistChat.SpecialistChat.constructor | src/components/ChatInterface.tsx:21-30 | the doctor, greeting with id 1 and "real medical professional" |
| SpecialistChat.GreetingsDiffer | src/components/ChatInterface.tsx:25-61 | the first greeting and the change greeting differ |
| SpecialistChat.InitialGreeting | src/components/ChatInterface.tsx:25 | the first greeting starts with `Hello! I'm your AI ` and the specialist's name |
| SpecialistChat.ChangeGreeting | src/components/ChatInterface.tsx:61 | the change greeting starts with `Hello! I'm your AI ` and the new specialist's name |
| SpecialistChat.SpecialistChat.SetInputMessage | src/components/ChatInterface.tsx:192 | the input becomes the typed value |
| SpecialistChat.SpecialistChat.HandleSpecialistChange | src/components/ChatInterface.tsx:56-66 | the specialist is set and the transcript is exactly one non-user greeting naming it |
| SpecialistChat.SpecialistChat.HandleSendMessage | src/components/ChatInterface.tsx:68-92 | blank input is a no-op; otherwise one user message with the untrimmed input, a reply with the current specialist pending, input cleared |
| SpecialistChat.ReplyText | src/components/ChatInterface.tsx:84 | the reply quotes the question and names the specialist |
| SpecialistChat.SpecialistChat.ResolveReply | src/components/ChatInterface.tsx:81-89 | one non-user message quoting the captured input, with id now + 1 |
| SpecialistChat.StaleReplyAfterChange | src/components/ChatInterface.tsx:56-89 | a reply pending across a specialist change follows the new greeting and names the old specialist |
| MessageHelpers.GenerateMessageId | src/lib/utils/message-helpers.ts:8-13 | length min(32, full length), a prefix of the full string, starts with `msg_` |
| MessageHelpers.MessageIdKeepsTimestamp | src/lib/utils/message-helpers.ts:9-12 | a timestamp of at most 27 base-36 digits survives the cut, followed by `_` |
| MessageHelpers.MessageIdsOfDifferentTimes | src/lib/utils/message-helpers.ts:9-12 | ids made at different milliseconds differ |
| MessageHelpers.GenerateTraceId | src/lib/utils/message-helpers.ts:18-20 | `trace_`, the decimal timestamp, `_`, then the random text after its first two characters |
| MessageHelpers.PreviousDayInvertsNextDay | src/lib/utils/message-helpers.ts:45-46 | the day before is the inverse of the day after on the Gregorian calendar |
| MessageHelpers.FormatMessageDate | src/lib/utils/message-helpers.ts:43-59 | "Today" iff the same day, "Yesterday" iff the day before, otherwise the short date with the year iff the year differs |
| MessageHelpers.ShortDate | src/lib/utils/message-helpers.ts:53-57 | non-empty and starting with the month abbreviation, so never with the `T` or `Y` of the relative labels |
| MessageHelpers.NewYearYesterday | src/lib/utils/message-helpers.ts:45-50 | December 31st seen on January 1st is "Yesterday" |
| Js.RadixRoundTrip | src/lib/utils/message-helpers.ts:9 | parsing the digits of `n.toString(radix)` gives back n |
| Js.ContainsIffOccurs | src/lib/websocket-client.ts:196 | `includes` holds iff the substring occurs at some position |
| Js.TrimEmptyIffBlank | goddessgpt-ui/components/community/CommunityChat.tsx:113 | `trim()` is empty iff the text is all white space |
| AuthContext.AuthProvider.constructor | src/contexts/AuthContext.tsx:15-20 | no user, no token, not authenticated, loading |
| AuthContext.MockToken | src/contexts/AuthContext.tsx:60 | the development token starts with `mock_jwt_` |
| AuthContext.MockUser | src/contexts/AuthContext.tsx:53-58 | id `user_` and the clock in decimal, the given name and email, and the avatar URL of the encoded name |
| AuthContext.LoadedState | src/contexts/AuthContext.tsx:24-44 | with a non-empty token and a non-empty user string that parses, the state is authenticated with that token and the parsed user, or no user for `null`; otherwise, parse errors included, only loading ends |
| AuthContext.UserField | src/contexts/AuthContext.tsx:30 | a parsed `null` is no user, a parsed object is that user |
| AuthContext.NullUserIsAuthenticated | src/contexts/AuthContext.tsx:29-36 | a token next to the user string `null` loads as authenticated with no user |
| AuthContext.ReloadWithNullUser | src/contexts/AuthContext.tsx:23-47 | a provider started on a token and `null` ends authenticated, not loading, with no user |
| AuthContext.AuthProvider.LoadAuthState | src/contexts/AuthContext.tsx:23-47 | the state becomes the loaded state; an authenticated state's token is still the stored one |
| AuthContext.AuthProvider.Login | src/contexts/AuthContext.tsx:49-80 | in development both keys are written and the state is authenticated with a `mock_jwt_` token and the given name and email; otherwise the error and nothing changes |
| AuthContext.AuthProvider.Logout | src/contexts/AuthContext.tsx:82-91 | both keys removed, signed out and not loading |
| AuthContext.LoginSurvivesReload | src/contexts/AuthContext.tsx:23-71 | a new provider on the storage `login` left restores the same authenticated state, with its user |
| AuthContext.LogoutSurvivesReload | src/contexts/AuthContext.tsx:82-91 | after logout a reload stays signed out |
| ChatContext.ChatProvider.AuthChanged | src/contexts/ChatContext.tsx:43-72 | the old client is disconnected; without a session the client is null and DISCONNECTED; with one a fresh client with the broadcast handler, the given token and ids from the given clock readings connects |
| ChatContext.ChatProvider.constructor | src/contexts/ChatContext.tsx:35-40 | no client, DISCONNECTED, no location, not loading, no error, no handlers |
| ChatContext.ChatProvider.Poll | src/contexts/ChatContext.tsx:64-66 | the provider's state copies the client's |
| ChatContext.ChatProvider.RequestLocation | src/contexts/ChatContext.tsx:75-108 | nothing without a session; loading starts; no geolocation means no location |
| ChatContext.ChatProvider.OnPosition | src/contexts/ChatContext.tsx:84-89 | the placeholder location, loading off |
| ChatContext.ChatProvider.OnPositionError | src/contexts/ChatContext.tsx:90-94 | no location, loading off |
| ChatContext.EffectiveLocation | src/contexts/ChatContext.tsx:131 | the explicit location if non-empty, else the stored one if non-empty, else none |
| ChatContext.ChatProvider.SendMessage | src/contexts/ChatContext.tsx:110-139 | without a client only the error is set; otherwise the client sends the envelope with the effective location, and the outcome is the client's: simulated in mock mode, else transmitted iff a socket exists and is open |
| ChatContext.ChatProvider.ForceReconnect | src/contexts/ChatContext.tsx:141-143 | the same client, if any, is reset to 0 attempts and restarts: a mock connect timer in mock mode, else CONNECTING with a socket or ERROR |
| ChatContext.ChatProvider.ClearError | src/contexts/ChatContext.tsx:145-147 | no error |
| ChatContext.ChatProvider.IsConnecting | src/contexts/ChatContext.tsx:158 | true iff the state is CONNECTING |
| ChatContext.ChatProvider.ClientId | src/contexts/ChatContext.tsx:161 | null without a client, the client's id otherwise |
| ChatContext.ChatProvider.ThreadId | src/contexts/ChatContext.tsx:162 | null without a client, the client's thread id otherwise |
| ChatContext.ChatProvider.RegisterMessageHandler | src/contexts/ChatContext.tsx:149-150 | the handler set gains exactly that handler |
| ChatContext.ChatProvider.UnregisterMessageHandler | src/contexts/ChatContext.tsx:151-153 | the handler set loses exactly that handler |
| ChatContext.ChatProvider.Broadcast | src/contexts/ChatContext.tsx:56-58 | every registered handler is called once with the message |
| ChatContext.SharedHandlerUnregistered | src/contexts/ChatContext.tsx:149-154 | one handler registered twice and unregistered once receives nothing |
| ChatContext.SignOutLeavesReconnect | src/contexts/ChatContext.tsx:44-71 | a client dropped on sign-out still schedules a reconnect when its close event arrives |
| SidebarContext.SidebarProvider.constructor | src/contexts/SidebarContext.tsx:14 | starts expanded |
| SidebarContext.SidebarProvider.ToggleSidebar | src/contexts/SidebarContext.tsx:16-18 | the flag is negated |
| SidebarContext.SidebarProvider.SetSidebarCollapsed | src/contexts/SidebarContext.tsx:20-22 | the flag is set to the argument |
| SidebarContext.ToggleTwiceRestores | src/contexts/SidebarContext.tsx:16-22 | two toggles restore the flag; setting twice equals setting once |

## Left out

- Real WebSocket I/O, `JSON.stringify` of the envelope, and `ws.send` are left out. `sendMessage` says only whether the envelope goes out.
- Time as a quantity is left out. Timers are unordered pending events, so their delays are recorded but not ordered against each other.
- `notifyConnectionChange` builds a message that is never delivered, so it is left out.
- The `'Failed to send message'` catch in the chat context is left out. Nothing in the modelled client throws.
- The `timestamp` and `data` fields of messages are left out. Floating-point seconds (`Date.now() / 1000`, `timestamp * 1000`) are not modelled.
- `Intl.DateTimeFormat` is out of scope. `MessageHelpers.ShortDate` is a plain "Mon D" / "Mon D, YYYY" rendering. `formatMessageTime` and `getUserTimezone` are left out.
- Dates are local calendar days. The time of day and the time zone are left out.
- `encodeURIComponent` is not modelled. The encoded name is a parameter.
- `JSON.parse` of a stored user is modelled as throwing, `null`, or a user object. Other JSON values (numbers, strings, arrays, objects of another shape) are not modelled, and neither is JSON of an envelope that does not match `IncomingMessage`.
- The getters `getConnectionState`, `getClientId` and `getThreadId` are the client's fields themselves.
- The hooks `useAuth`, `useChat` and `useChatMessages` only look up a context or register and unregister a handler, which `RegisterMessageHandler` and `UnregisterMessageHandler` model.
- `handleFileInput` and `openFileDialog` only forward to `handleFileSelect` or the file dialog.
- The community feed's mock `fetchPosts` load and its auto-scroll are left out.
- Geolocation, next-auth `getToken`, and `NODE_ENV` are inputs.
- React rendering, effects' scheduling order, scrolling, textarea resizing, toasts and all JSX are left out.
- `WebSocketClient.Client.HandleMessage`: the handlers' call order is not modelled. The source iterates a `Set` in insertion order; the model returns the set of calls.
- `ChatContext.ChatProvider.Broadcast`: likewise, it says which handlers are called, not in which order.
- `CompanionChat.CompanionChat.ResolveReply` and `SpecialistChat.SpecialistChat.ResolveReply` resolve the oldest pending reply first. All these timers have the same delay.
- `CommunityFeed.CommunityChat.HandlePostMessage` treats the 800 ms wait before posting as atomic, so input typed during that wait is not modelled. The companion chat's 1000 ms wait is not atomic: it is a pending reply that `ResolveReply` delivers.
- `CompanionChat.WelcomeText` takes the already-rendered user name; how `${user.name}` prints a missing name is not modelled.
- `MessageHelpers.YearText` prints negative years by magnitude. `Intl` years before 1 are outside what the application shows.
- `toLowerCase` is ASCII-only; other letters are left unchanged.

## Findings

None recorded. Some behaviour above looks unintended: the never-true "thinking" test, reconnection after `disconnect`, stale specialist replies, the status text kept by `complete`, and the session restored without a user. For none of them does the source say what was meant instead, so they are stated as proved properties of the code as written.
