# Clash Code front end — a verified model of its core logic

Clash Code is a competitive-programming site. Its browser front end:

- shows live notifications pushed over a STOMP-over-WebSocket connection;
- runs one-on-one matches, with matchmaking, a countdown, resign guards and a results overlay;
- lets users suggest problems with their own test cases;
- offers sign-in and password-recovery forms, rank and rating displays, and a few list screens.

This project models the logic of that front end in Dafny and proves what each piece promises. There is one module per source file, or per small group of helpers.

## What is modelled

- **The live notification layer.**
  - `Notifications` holds the value types and the pure rules:
    - the fingerprint of an incoming message;
    - the 100-entry fingerprint window, which drops its 50 oldest entries once it exceeds 100;
    - the total mapping from a server message to a notification;
    - the 2-second duplicate window;
    - the newest-first list capped at 50 entries;
    - read, remove and unread-count operations.
  - `NotificationStore` is the provider's store as a class with `seq` fields. Its handlers keep the list bounded, keep ids distinct and keep the unread count equal to the number of unread entries.
  - `WsService` is the connection state machine. It holds a subscriptions map, a reconnect counter bounded by 5, and guards that make connect, subscribe and send do nothing in the wrong state. Only the current session's subscriptions deliver, so a disconnect and reconnect never leaves a stale subscription feeding the store.
  - `Provider` wires the service to the store.
  - `ToastFeed` covers the toast queue, the connection indicator and the bell badge.
- **Match flow.**
  - `PlayGameHome` is the matchmaking page.
  - `PlayGameMatch` is the match page. It reacts to relevant notifications and has a results fetch and a resign flow.
  - `MatchGuard` and `MatchNavigationGuard` are the two navigation blockers. `SessionStore` is the session key-value store with its active-match helpers.
  - `MatchState` covers the live submission logs: the newest-first sort and the left/right pairing.
  - `Timer` is the draggable countdown.
- **Rating arithmetic.**
  - `Ranks` holds the seven 300-point ranks and the distance to the next rank.
  - `Matches` and `MatchResults` derive the rank-change title and the signed rating change.
  - `MatchUtils` gives the result label of a final rank.
- **Forms and validators.**
  - `Validation` holds the seven validators.
  - `PasswordRecovery` is the three-step wizard.
  - `Api` covers the auth-header rule and the classification of HTTP errors.
  - `ProblemValidation`, `ProblemInfo` and `TestCases` are the suggest-problem checks, the topic list and the test-case list with its run.
- **Lists and selection.**
  - `Tags` holds the tag tables and their round trips.
  - `Dropdowns` covers the two searchable dropdowns.
  - `Difficulty` covers the difficulty range and its colour.
  - `ProblemRow`, `UserRows` and `Routes` cover row mapping, row numbering and route filtering.
- **Shared helpers.**
  - `Text` provides `Option` and the string built-ins the code relies on: trim, toLowerCase, split/join, includes, padStart, `Number(...)` and `parseInt` on digit strings, and integer-to-string.
  - `Lists` provides `map`, `filter` and their facts.
  - String lengths are JavaScript's `.length`, in UTF-16 code units.

### Modelling conventions

- **Time.** The clock is an integer parameter `now`, in milliseconds.
- **Notification ids.** Ids are fresh values passed in. The store keeps a ghost set of every id it has issued, so "never reused" is an invariant.
- **REST calls.** The result of every REST call is a parameter: a success value or what the HTTP client threw.
- **Throws.**
  - The HTTP client throws plain strings; `Api.Thrown` models that.
  - A handler that would itself throw, by reading a property of `undefined`, reports that through a `threw` result.
- **React state.** Each component's state is a class. Each handler is a method that runs atomically.
- **Falsy fallbacks.** The JavaScript fallbacks (`x || y`, `x ?? y`, `!x`) are written out explicitly with `Option` and empty-string tests.
- **Session keys.** The match-navigation guard reads the session key `currentMatchId`, but the active-match helpers write `activeMatchId`. The model keeps the two keys separate, as the code does. `MatchNavigationGuard.NeverBlocksOnActiveMatchHelpers` states the consequence: using those helpers alone never arms that guard.

## Model

| member | source | states |
|---|---|---|
| Api.Intercept | src/services/api.ts:19-25 | the bearer header is set exactly when a token is stored, is not empty or "undefined", headers exist and the URL does not contain "/auth"; otherwise the headers are untouched; the URL is never changed |
| Api.AuthUrlsStayAnonymous | src/services/api.ts:21 | any URL containing "/auth" never receives the token, whatever the token |
| Api.HandleApiError | src/services/api.ts:34-62 | precedence of what is thrown: a string body, then `error`, then `message`, then "Unknown server error"; "Network error…" when no response came; else `error.message`, which may be undefined |
| Validation.HasEmailShape | src/utils/validation.tsx:16 | the direct test agrees with the email pattern in both directions |
| Validation.EmailSplitHasShape | src/utils/validation.tsx:16 | every split the pattern admits (local part, '@', domain, '.', suffix) passes the direct test |
| Validation.ValidateEmail | src/utils/validation.tsx:11-21 | blank gives "Email is required"; otherwise valid exactly when the pattern matches, with the format message when not |
| Validation.ValidateUsername | src/utils/validation.tsx:28-45 | blank gives "Username is required", fewer than 4 UTF-16 units "Username is too short"; otherwise valid iff 4..32 UTF-16 units, all of `[a-zA-Z0-9_-]` |
| Validation.ValidUsernameHasNoSpace | src/utils/validation.tsx:37 | a valid username contains no white space and is not blank |
| Validation.ValidatePassword | src/utils/validation.tsx:51-61 | blank gives "Password is required"; otherwise valid iff 8..64 UTF-16 units, counted untrimmed |
| Validation.SpacesOnlyPasswordIsMissing | src/utils/validation.tsx:52-54 | a password of white space only is reported missing, whatever its length |
| Validation.ValidatePasswordMatch | src/utils/validation.tsx:66-75 | valid iff the two strings are equal |
| Validation.ValidateRecoveryAnswer | src/utils/validation.tsx:81-91 | blank gives "Please enter an answer."; otherwise valid iff 2..100 UTF-16 units |
| Validation.ValidateRecoveryQuestion | src/utils/validation.tsx:96-102 | valid iff the question is not blank |
| Validation.ValidateEmailOrUsername | src/utils/validation.tsx:108-118 | valid iff not blank and at least 4 UTF-16 units long |
| Validation.UsernameAcceptedAtLogin | src/utils/validation.tsx:28-118 | every username that sign-up accepts passes the login field's check |
| Ranks.RankColorMapPairsConfig | src/utils/colorMapper.tsx:1-32 | `rankColors` pairs each of the seven rank names with its configured colour and holds no other key |
| Ranks.RankIndex | src/utils/colorMapper.tsx:13-19 | the index lies in 0..6, is 0 below 300 and 6 from 1800, and otherwise brackets the rating by multiples of 300 |
| Ranks.GetRankName | src/utils/colorMapper.tsx:13-20 | the name is the table entry at the clamped index; BRONZE below 300, LEGEND from 1800 |
| Ranks.GetRankColor | src/utils/colorMapper.tsx:22-28 | the colour is the table entry at the same clamped index as the name |
| Ranks.ColorMatchesName | src/utils/colorMapper.tsx:13-32 | a rating's colour is the `rankColors` entry of its rank name |
| Ranks.RankMonotone | src/utils/colorMapper.tsx:13-19 | a higher rating never gives an earlier rank |
| Ranks.CalculateNextRate | src/utils/calculateNextRate.tsx:13-40 | at the top rank: "MAX", 0 points and LEGEND's colour, exactly when the rate is at least 1800; below it, 1..300 points to the next rank's name and colour |
| Ranks.NextThresholdIsSmallestAbove | src/utils/calculateNextRate.tsx:28-30 | rate plus remaining points is the smallest multiple of 300 above the rate |
| Ranks.GetCurrentRank | src/utils/calculateNextRate.tsx:42-49 | a non-negative rate gives the same name as `getRankName`; a negative rate indexes before the table (undefined) |
| Ranks.RankColorOf | src/utils/calculateNextRate.tsx:51-54 | "MAX" gives LEGEND's colour, a known rank its colour, anything else the grey fallback |
| Ranks.NextRankColorAgrees | src/utils/calculateNextRate.tsx:31-54 | the colour reported for the next rank is the one `getRankColor(rank)` gives for its name |
| Matches.GetTitleData | src/pages/profile/Matches.tsx:21-40 | friendly exactly when unrated or without a new rating; otherwise "same" exactly when the rank names before and after agree, with the new rank's name and colour, else a change from the old rank to the new one |
| Matches.ChangeFollowsSign | src/pages/profile/Matches.tsx:26-35 | a rank change after a gain is a promotion and after a loss a demotion |
| Matches.RateChangeCell | src/pages/profile/Matches.tsx:47-96 | a dash unless rated with a change; green iff the change is non-negative, red iff negative; a leading '+' iff positive |
| Matches.RateChangeCellReadsBack | src/pages/profile/Matches.tsx:93-94 | the cell's text read as an integer is the rating change |
| MatchResults.ResultStateOf | src/components/match/MatchResults.tsx:25-33 | rank 1 wins, rank 0 draws, every other rank loses |
| MatchResults.OverlayAgreesWithHistory | src/components/match/MatchResults.tsx:25-59 | the overlay and `getStatusConfig` classify every rank alike and give it the same colour |
| MatchResults.RenderRatingChange | src/components/match/MatchResults.tsx:61-80 | unrated shows the badge only; rated shows old rating = new − change, both rank colours, "+" iff the change is non-negative, green iff non-negative |
| MatchResults.SignAndValueReconstruct | src/components/match/MatchResults.tsx:74-75 | sign and absolute value give back the rating change |
| MatchResults.ShowsConfetti | src/components/match/MatchResults.tsx:119 | confetti iff the rank is 1 |
| MatchUtils.GetStatusConfig | src/utils/matchUtils.tsx:19-23 | "WON" iff rank 1, "DRAW" iff rank 0, "LOST" otherwise, each with its colour |
| MatchUtils.FormatTimePlaceholder | src/utils/matchUtils.tsx:1-2 | "--:--" exactly when the time is missing or empty; any other input is left to date formatting |
| NotificationFormat.LookupOr | src/utils/notificationFormatDetailsMapper.tsx:12 | the table entry or the fallback: a non-empty entry when the key is present, the fallback when absent |
| NotificationFormat.GetTypeColor | src/utils/notificationFormatDetailsMapper.tsx:1-13 | a listed type gets its colour, any other type "text-text/70" |
| NotificationFormat.GetTypeColorForDetail | src/utils/notificationFormatDetailsMapper.tsx:15-27 | a listed type gets its detail classes, any other type the neutral classes |
| NotificationFormat.SameTypesInBothTables | src/utils/notificationFormatDetailsMapper.tsx:1-27 | both colour tables list the same types, so a type falls back in one exactly when it falls back in the other |
| NotificationFormat.GetTypeBadge | src/utils/notificationFormatDetailsMapper.tsx:29-41 | "Match" iff one of the six match types, "Friend" iff one of the two friend types, "Other" otherwise |
| NotificationFormat.BadgesCoverColouredTypes | src/utils/notificationFormatDetailsMapper.tsx:1-41 | a type has a colour exactly when it has a Match or Friend badge |
| NotificationFormat.Capitalize | src/utils/notificationFormatDetailsMapper.tsx:45 | same length, first character kept, every later character lower-cased |
| NotificationFormat.CapitalizeAll | src/utils/notificationFormatDetailsMapper.tsx:44-46 | one capitalised word per input word, in order |
| NotificationFormat.FormatTypeLabelPointwise | src/utils/notificationFormatDetailsMapper.tsx:43-47 | the label has the type's length; each '_' becomes a space, each word's first character is kept, the rest are lower-cased |
| NotificationFormat.LabelWordCount | src/utils/notificationFormatDetailsMapper.tsx:44 | the label has one word per '_'-separated part |
| NotificationFormat.FormatTimeAgo | src/utils/notificationFormatDetailsMapper.tsx:61-71 | by elapsed whole seconds: "Just now" under 60, then minutes, hours and days with their thresholds; a date (not modelled) from a week on |
| NotificationFormat.TimeAgoUnitBounds | src/utils/notificationFormatDetailsMapper.tsx:67-69 | the number shown is the floor of the elapsed units: 1..59 minutes, 1..23 hours, 1..6 days |
| NotificationFormat.MinutesReadBack | src/utils/notificationFormatDetailsMapper.tsx:67 | the number in an "m ago" label reads back as the elapsed minutes |
| NotificationService.FetchParams | src/services/NotificationService.tsx:41-48 | page and size always, as decimal text; a category key exactly when the category is not "all"; no other key |
| NotificationService.FirstWhere | src/services/NotificationService.tsx:126-132 | the leftmost position in the range where the test holds, or none exactly when it holds nowhere in the range |
| NotificationService.FirstStatusMatch | src/services/NotificationService.tsx:126 | the status pattern's leftmost match position, or none anywhere |
| NotificationService.ExtractStatus | src/services/NotificationService.tsx:126-129 | a status exactly when the pattern matches somewhere; the word captured at the leftmost match, a non-empty run of word characters |
| NotificationService.StatusOfGotMessage | src/services/NotificationService.tsx:126-128 | "got <word>…" yields that word |
| NotificationService.FirstCasesMatch | src/services/NotificationService.tsx:132 | the test-case pattern's leftmost match position, or none anywhere |
| NotificationService.ExtractCases | src/services/NotificationService.tsx:132-136 | counts exactly when the pattern matches somewhere; the pair captured at the leftmost match |
| NotificationService.ParenthesesAreRedundant | src/services/NotificationService.tsx:132 | the parenthesised alternative never changes the result: it equals the first bare `a/b` pair |
| NotificationService.ExtractCasesIsFirstSlashPair | src/services/NotificationService.tsx:132-136 | the extracted counts are the first `digits/digits` pair of the message |
| NotificationService.MapNotificationToRow | src/services/NotificationService.tsx:104-120 | every response field is copied; status and both counts are present exactly when extraction finds them |
| NotificationService.MapRows | src/services/NotificationService.tsx:57 | one row per response, in order |
| NotificationService.FetchNotificationsResult | src/services/NotificationService.tsx:56-64 | each content entry is `mapNotificationToRow` of the entry at the same position; the paging fields are copied |
| Notifications.SameKeySameSecond | src/contexts/WebSocketContext.tsx:37 | two events that agree on type, match id, sender and status within the same whole second get the same fingerprint |
| Notifications.MapMessage | src/contexts/WebSocketContext.tsx:154-228 | every event becomes a fresh unread entry carrying the event as metadata and never a warning; a submission result is a success iff the status is ACCEPTED; an unknown type is info with the event's title and message or the defaults |
| Notifications.MapMessageTextIgnoresIdAndClock | src/contexts/WebSocketContext.tsx:155-160 | title, message and category depend only on the event, not on the generated id or the time |
| Notifications.Ids | src/contexts/WebSocketContext.tsx:6 | the ids of the list, position by position |
| Notifications.MarkRead | src/contexts/WebSocketContext.tsx:109-113 | same length; entries with the id become read, all others are unchanged |
| Notifications.MarkAllRead | src/contexts/WebSocketContext.tsx:115-117 | same length; every entry is the old one marked read |
| Notifications.Remove | src/contexts/WebSocketContext.tsx:119-121 | no entry with the id remains, and every remaining entry was in the list |
| Notifications.UnreadCount | src/contexts/WebSocketContext.tsx:127 | the unread count never exceeds the list length |
| Notifications.MarkAllReadClearsUnread | src/contexts/WebSocketContext.tsx:115-127 | after marking all read the unread count is 0 |
| Notifications.MarkReadUnread | src/contexts/WebSocketContext.tsx:109-127 | marking an id read lowers the unread count by exactly the unread entries with that id, leaving none |
| Notifications.RemoveUnread | src/contexts/WebSocketContext.tsx:119-127 | removing an id lowers the unread count by exactly its unread entries |
| Notifications.AbsentIdIsNoOp | src/contexts/WebSocketContext.tsx:109-121 | marking or removing an id that is not present changes nothing |
| Notifications.RemoveAt | src/contexts/WebSocketContext.tsx:119-121 | with distinct ids, removing a present id deletes exactly that entry and keeps the order of the rest |
| Notifications.RemoveKeepsDistinct | src/contexts/WebSocketContext.tsx:119-121 | removal keeps ids distinct and adds nothing |
| Notifications.RecordFingerprintFacts | src/contexts/WebSocketContext.tsx:45-51 | recording a new fingerprint keeps the window at most 100 long and without repeats, holds the new one last, and drops the oldest 50 once it would exceed 100 |
| Notifications.IngestBounded | src/contexts/WebSocketContext.tsx:35-72 | ingestion keeps at most 50 entries and at most 100 distinct fingerprints |
| Notifications.IngestRecordsFingerprint | src/contexts/WebSocketContext.tsx:37-51 | afterwards the event's fingerprint is in the window, whether or not the event was added |
| Notifications.IngestTwiceSameSecond | src/contexts/WebSocketContext.tsx:37-43 | the same event again within the same whole second changes nothing (idempotent ingestion) |
| Notifications.IngestEachOnce | src/contexts/WebSocketContext.tsx:37-43 | any number of repeats within one second leave the store as one delivery does |
| Notifications.IngestAccepted | src/contexts/WebSocketContext.tsx:53-70 | an accepted event is put first and the previous entries follow in order, cut to 50 |
| Notifications.IngestRejected | src/contexts/WebSocketContext.tsx:40-66 | a duplicate fingerprint or a recent identical title and message leaves the list unchanged |
| Notifications.IngestTwiceWithinWindow | src/contexts/WebSocketContext.tsx:57-66 | the same event again less than 2 s after it was added is not added a second time, even in a new second |
| Notifications.PrependKeepsDistinct | src/contexts/WebSocketContext.tsx:69 | prepending an entry with a new id keeps ids distinct and adds only that entry |
| Notifications.PrependUnread | src/contexts/WebSocketContext.tsx:69-127 | prepending an unread entry raises the unread count by one, less the evicted last entry if it was unread |
| Notifications.EvictsOldest | src/contexts/WebSocketContext.tsx:69 | with 50 entries, an accepted event keeps the length at 50, puts the new entry first and every kept entry one place later, and drops the oldest |
| Notifications.ScenarioDuplicateFriendAccepted | src/contexts/WebSocketContext.tsx:37-218 | two identical friend-accepted events in succession leave exactly one entry |
| Notifications.ScenarioUnknownType | src/contexts/WebSocketContext.tsx:220-226 | an unknown type becomes an info entry titled "Notification" with the default message |
| NotificationStore.Without | src/contexts/WebSocketContext.tsx:50 | `Set.delete`: the value is gone and every other element stays |
| NotificationStore.WithoutFirst | src/contexts/WebSocketContext.tsx:49-50 | deleting the oldest entry of a window without repeats drops exactly the first element |
| NotificationStore.Store.constructor | src/contexts/WebSocketContext.tsx:31-33 | an empty list and an empty fingerprint window |
| NotificationStore.Store.HandleWebSocketMessage | src/contexts/WebSocketContext.tsx:35-72 | the new list and window are the ingestion function of the old ones; the store invariant holds; the fresh id joins the issued ids |
| NotificationStore.Store.RememberFingerprint | src/contexts/WebSocketContext.tsx:45-51 | the add-then-delete-oldest-50 loop leaves exactly the recorded window, bounded and without repeats |
| NotificationStore.Store.MarkAsRead | src/contexts/WebSocketContext.tsx:109-113 | the list becomes the marked list, the unread count drops by the unread entries with the id; nothing else changes |
| NotificationStore.Store.MarkAllAsRead | src/contexts/WebSocketContext.tsx:115-117 | every entry read, unread count 0; nothing else changes |
| NotificationStore.Store.RemoveNotification | src/contexts/WebSocketContext.tsx:119-121 | the list loses the id's entries and the unread count drops by its unread ones; nothing else changes |
| NotificationStore.Store.ClearAll | src/contexts/WebSocketContext.tsx:123-125 | the list is emptied and the fingerprint window is kept |
| NotificationStore.Store.ClearProcessed | src/contexts/WebSocketContext.tsx:95-98 | teardown empties the fingerprint window and keeps the list |
| WsService.DispatchAll | src/services/ws.ts:76-84 | every call a frame causes carries the parsed payload; each funnel call is followed by the subscription's own callback |
| WsService.DispatchCounts | src/services/ws.ts:76-84 | each live subscription on the destination calls the store's funnel once (when installed) and its own callback once |
| WsService.Drop | src/services/ws.ts:89-108 | exactly the subscriptions whose handle was not ended remain |
| WsService.DropUnion | src/services/ws.ts:108 | ending handles in two batches is ending their union |
| WsService.WebSocketService.constructor | src/services/ws.ts:7-13 | no client, no subscriptions, zero reconnect attempts, no callbacks |
| WsService.WebSocketService.Report | src/services/ws.ts:42-112 | a status is recorded exactly when a status callback is installed; only the report list changes |
| WsService.WebSocketService.Connect | src/services/ws.ts:15-68 | a no-op while connected; otherwise installs the callbacks, reports "connecting" and builds a not yet connected client, holding no subscription, whose header carries "Bearer token" only for a non-empty token |
| WsService.WebSocketService.OnConnect | src/services/ws.ts:39-43 | connected, attempts reset to 0, "connected" reported exactly when callbacks are installed; only those three fields change |
| WsService.WebSocketService.OnDisconnect | src/services/ws.ts:45-49 | not connected, tracked subscriptions forgotten, no subscription delivers any more, "disconnected" reported exactly when callbacks are installed; the client, header, attempts, callbacks and published frames are kept |
| WsService.WebSocketService.OnStompError | src/services/ws.ts:51-59 | reports "error"; below 5 attempts counts one more and reports "reconnecting", at 5 stays put; reports only when callbacks are installed, and only the reports and the counter change |
| WsService.WebSocketService.OnWebSocketError | src/services/ws.ts:61-64 | reports "error" exactly when callbacks are installed, and changes nothing else |
| WsService.WebSocketService.Subscribe | src/services/ws.ts:70-92 | refused with no change unless connected; otherwise a new live subscription with the next handle that replaces the destination's tracked entry; client, attempts, callbacks, header, reports and published frames kept |
| WsService.WebSocketService.Unsubscribe | src/services/ws.ts:88-91 | ends exactly that subscription and deletes the destination's entry, whichever handle it holds; nothing else changes |
| WsService.WebSocketService.Dispatch | src/services/ws.ts:76-84 | an unparsable body runs no callback; otherwise the funnel runs once per live subscription on the destination |
| WsService.WebSocketService.Send | src/services/ws.ts:94-104 | published exactly when connected; nothing else changes |
| WsService.WebSocketService.Disconnect | src/services/ws.ts:106-113 | every tracked subscription is ended and deactivation ends the rest, so no subscription delivers; none is tracked, there is no client, and "disconnected" is reported exactly when callbacks are installed; attempts, header, callbacks and published frames kept |
| WsService.EndTracked | src/services/ws.ts:108 | ending the tracked handles one by one, in any order, leaves exactly the live subscriptions with other handles |
| WsService.WebSocketService.NothingDeliveredWhileDown | src/services/ws.ts:45-49 | while the session is down a frame runs no callback |
| WsService.ReconnectDeliversNothing | src/services/ws.ts:15-113 | after `disconnect()`, a fresh `connect` and the broker's acceptance, the client is connected with no subscription and a frame runs no callback |
| Provider.TopicFor | src/contexts/WebSocketContext.tsx:88 | the destination is "/topic/match-pop/" followed by the user name |
| Provider.WebSocketProvider.constructor | src/contexts/WebSocketContext.tsx:30-33 | a fresh, disconnected service and an empty store |
| Provider.WebSocketProvider.Status | src/contexts/WebSocketContext.tsx:30-82 | the connection status is the last status reported, "disconnected" before any |
| Provider.WebSocketProvider.Mount | src/contexts/WebSocketContext.tsx:74-82 | connects exactly when the token is present, not empty, not "undefined" and a user is known: from a disconnected service that builds a not yet connected client with callbacks, no live subscription, the bearer header and a "connecting" report; otherwise the service is untouched |
| Provider.WebSocketProvider.SubscribeAfterDelay | src/contexts/WebSocketContext.tsx:85-93 | subscribes to the user's topic exactly when connected by then and a user is known, changing only the live list, the tracked entry and the handle counter; otherwise nothing changes |
| Provider.WebSocketProvider.MountThenSubscribe | src/contexts/WebSocketContext.tsx:74-93 | from a disconnected service, mount, the broker's acceptance and the delayed timer leave a connected service with the user's topic as its one live subscription, "connecting" then "connected" reported, and a frame on the topic reaching the store exactly once |
| Provider.WebSocketProvider.Unmount | src/contexts/WebSocketContext.tsx:95-98 | disconnects the service, reporting "disconnected" exactly when callbacks are installed, and clears the fingerprint window, keeping the list |
| ToastFeed.IndicatorVisible | src/components/notifications/GlobalNotificationComponents.tsx:20 | the connection indicator is shown exactly when not connected |
| ToastFeed.IndicatorText | src/components/notifications/GlobalNotificationComponents.tsx:9-17 | "Disconnected" and "Connection Error" for the two failure states; a text trails off with "..." exactly when the icon pulses (connecting or reconnecting) |
| ToastFeed.IndicatorTextsDistinct | src/components/notifications/GlobalNotificationComponents.tsx:9-17 | two statuses share a text exactly when they are the same status |
| ToastFeed.ToastIdOfGeneratedId | src/components/notifications/GlobalNotificationComponents.tsx:38-41 | for an id "ms-0.xxx" the numeric toast id is the millisecond reading |
| ToastFeed.SameMillisecondSameToast | src/components/notifications/GlobalNotificationComponents.tsx:38-41 | two notifications created in the same millisecond get the same toast id |
| ToastFeed.ToToast | src/components/notifications/GlobalNotificationComponents.tsx:31-50 | title and message copied; a warning shows as info, other kinds unchanged; the sender is senderUsername, else accepterUsername, else "System", never empty |
| ToastFeed.Enqueue | src/components/notifications/GlobalNotificationComponents.tsx:71-77 | the toast's id is queued afterwards; the queue is unchanged or grows by that toast at the end; ids stay distinct |
| ToastFeed.ShowAllDistinct | src/components/notifications/GlobalNotificationComponents.tsx:59-79 | the effect never queues two toasts with one numeric id |
| ToastFeed.ShowAllShows | src/components/notifications/GlobalNotificationComponents.tsx:59-79 | every walked entry not yet processed has a toast with its id queued afterwards |
| ToastFeed.FindByToastId | src/components/notifications/GlobalNotificationComponents.tsx:88-91 | the first entry whose toast id matches, or none when no entry matches |
| ToastFeed.WithoutToast | src/components/notifications/GlobalNotificationComponents.tsx:85 | no toast with the id remains and all others stay |
| ToastFeed.WithoutKeepsDistinct | src/components/notifications/GlobalNotificationComponents.tsx:85 | closing a toast keeps queued ids distinct |
| ToastFeed.Feed.constructor | src/components/notifications/GlobalNotificationComponents.tsx:54-55 | an empty queue and no processed ids over the shared store |
| ToastFeed.Feed.ShowNewest | src/components/notifications/GlobalNotificationComponents.tsx:58-80 | the first three entries are processed; the queue is the toasts of the unprocessed ones appended in order; each of those entries becomes read with every other field kept, and every other entry is unchanged |
| ToastFeed.Feed.ConsiderOne | src/components/notifications/GlobalNotificationComponents.tsx:60-78 | one entry: its id joins the processed set; if new, its toast is enqueued and, when it was unread, the store list becomes `MarkRead` of it; otherwise the list is unchanged |
| ToastFeed.Feed.WalkStep | src/components/notifications/GlobalNotificationComponents.tsx:60-78 | one turn of the walk keeps its invariant: the queue still leads to the same final queue, the processed set grows by this entry's id, and the list is the original with exactly the unprocessed entries walked so far marked read |
| ToastFeed.Feed.HandleClose | src/components/notifications/GlobalNotificationComponents.tsx:83-102 | the toast leaves the queue; the first matching entry is removed from the store and its id from the processed set; with no match the store is untouched |
| ToastFeed.BadgeText | src/components/notifications/GlobalNotificationComponents.tsx:117-121 | no badge with nothing unread; the digit for 1..9; "9+" above 9 |
| ToastFeed.BellLabel | src/components/notifications/GlobalNotificationComponents.tsx:114 | "Notifications " with nothing unread, else "Notifications (n unread)" |
| SessionStore.SessionStorage.constructor | src/utils/matchState.ts:1-15 | an empty session store |
| SessionStore.SessionStorage.GetItem | src/utils/matchState.ts:6 | null exactly for an absent key, the stored value otherwise |
| SessionStore.SessionStorage.SetItem | src/utils/matchState.ts:2 | only that key changes, to the value |
| SessionStore.SessionStorage.RemoveItem | src/utils/matchState.ts:10 | only that key is removed |
| SessionStore.SessionStorage.SetActiveMatch | src/utils/matchState.ts:1-3 | afterwards the active match is the id; every other key reads as before |
| SessionStore.SessionStorage.GetActiveMatch | src/utils/matchState.ts:5-7 | reads the 'activeMatchId' entry |
| SessionStore.SessionStorage.ClearActiveMatch | src/utils/matchState.ts:9-11 | afterwards there is no active match; every other key reads as before |
| SessionStore.SessionStorage.HasActiveMatch | src/utils/matchState.ts:13-15 | true exactly when an entry is stored, even an empty one |
| SessionStore.OpsTouchOnlyActiveKey | src/utils/matchState.ts:1-15 | any run of the helpers leaves every other key as it was |
| SessionStore.LastOpDecides | src/utils/matchState.ts:1-15 | the last helper call decides the active match: the last id set, or none after a clear |
| MatchGuard.ShouldBlock | src/hooks/useMatchGuard.ts:27-37 | never while disabled or resigning; otherwise exactly when the path changes to one outside `/play-game/<matchId>` |
| MatchGuard.NeverBlocksInsideMatch | src/hooks/useMatchGuard.ts:31-33 | moving within the match's own pages, or to the same path, is never blocked |
| MatchGuard.Guard.constructor | src/hooks/useMatchGuard.ts:23-25 | modal closed, nothing pending, not resigning, blocker idle |
| MatchGuard.Guard.RequestNavigation | src/hooks/useMatchGuard.ts:27-37 | blocked exactly as the predicate says; a blocked transition is held and the location kept, an allowed one moves; nothing else changes |
| MatchGuard.Guard.OnBlockerChange | src/hooks/useMatchGuard.ts:39-44 | a blocked transition opens the modal and records its pathname (or null when empty); only the modal and the pending path can change |
| MatchGuard.Guard.HandleResignConfirm | src/hooks/useMatchGuard.ts:59-78 | resign is awaited once; on success the modal closes and the held transition proceeds, else the pending path is navigated to; on failure the alert is shown; either way resigning ends and nothing stays pending |
| MatchGuard.Guard.HandleResignCancel | src/hooks/useMatchGuard.ts:80-87 | the modal closes, nothing is pending and a held transition is reset; nothing else changes |
| MatchGuard.Guard.UnloadPrompt | src/hooks/useMatchGuard.ts:46-57 | the leave-page warning exists exactly while the guard is enabled |
| MatchNavigationGuard.IsInMatchAt | src/routes/MatchNavigationGuard.tsx:15-19 | a non-empty stored id and a path containing "/play-game/" |
| MatchNavigationGuard.ShouldBlockNavigation | src/routes/MatchNavigationGuard.tsx:21-27 | the evidently intended predicate: exactly when an id is stored, the current path is a match route and the next is not |
| MatchNavigationGuard.Get | src/routes/MatchNavigationGuard.tsx:24 | property access: `undefined` for a missing property, a throw on `undefined` |
| MatchNavigationGuard.PathnameIncludes | src/routes/MatchNavigationGuard.tsx:24 | `.pathname.includes` throws on `undefined` and is the substring test on a location |
| MatchNavigationGuard.BlockerThrowsAsWritten | src/routes/MatchNavigationGuard.tsx:21-29 | as written, the blocker throws on every argument the router passes, whatever is stored |
| MatchNavigationGuard.CorrectedBlockerDecides | src/routes/MatchNavigationGuard.tsx:21-29 | reading `.nextLocation.pathname`, the blocker never throws and decides as `ShouldBlockNavigation` |
| MatchNavigationGuard.NeverBlocksOnActiveMatchHelpers | src/routes/MatchNavigationGuard.tsx:16-22 | the guard reads 'currentMatchId', which the active-match helpers never write, so their use alone never makes it block |
| MatchNavigationGuard.NavigationGuard.constructor | src/routes/MatchNavigationGuard.tsx:12-13 | modal closed, nothing pending, blocker idle |
| MatchNavigationGuard.NavigationGuard.RequestNavigation | src/routes/MatchNavigationGuard.tsx:21-29 | blocked exactly as the corrected predicate says on the stored 'currentMatchId'; nothing else changes |
| MatchNavigationGuard.NavigationGuard.OnBlockerChange | src/routes/MatchNavigationGuard.tsx:31-36 | a blocked transition records its pathname and opens the modal; only those two fields can change |
| MatchNavigationGuard.NavigationGuard.HandleResign | src/routes/MatchNavigationGuard.tsx:38-59 | resigns with the stored id; on success the key is removed, the modal closes and the held transition proceeds or the pending path is navigated to (the blocker kept when none was held); on failure only the alert is added |
| MatchNavigationGuard.NavigationGuard.HandleCancel | src/routes/MatchNavigationGuard.tsx:61-67 | the modal closes, nothing is pending and a held transition is reset; nothing else changes |
| MatchNavigationGuard.NavigationGuard.UnloadPrompt | src/routes/MatchNavigationGuard.tsx:69-79 | the leave-page warning fires exactly while in a match |
| PlayGameHome.FindOpponent | src/pages/play-game/playGameHome.tsx:85-146 | the first log entry whose name differs from the user's, or none when every entry is the user's |
| PlayGameHome.FindSelf | src/pages/play-game/playGameHome.tsx:97-158 | the first log entry carrying the user's name, or none |
| PlayGameHome.BuildMatchData | src/pages/play-game/playGameHome.tsx:92-165 | the user is player 1 with their own avatar ("" when absent) and rank ("BRONZE" when absent); the opponent is player 2 with their rank and avatar, "/default-avatar.png" when empty |
| PlayGameHome.FindMatchStarted | src/pages/play-game/playGameHome.tsx:132-134 | the first unread MATCH_STARTED entry, or none when there is none |
| PlayGameHome.PlayGameHomePage.constructor | src/pages/play-game/playGameHome.tsx:39-58 | the initial state: not matchmaking, opponent mode, no match card, loading, BRONZE stats |
| PlayGameHome.PlayGameHomePage.InitializeData | src/pages/play-game/playGameHome.tsx:65-128 | no user: nothing fetched; a failed ongoing-match check: only that request; an ongoing match: log and details requested, stats untouched, and the card built with the intro shown exactly when both fetches succeed and an opponent is found; no ongoing match: the profile is requested and fills the stats when it arrives; only loading, requests, card, intro and stats can change; loading always ends |
| PlayGameHome.PlayGameHomePage.OnNotifications | src/pages/play-game/playGameHome.tsx:131-176 | with an unread MATCH_STARTED entry its log is fetched; with a user and an opponent the card is built from the event, matchmaking ends and the intro is shown; otherwise nothing changes; only requests, card, matchmaking and intro can change |
| PlayGameHome.PlayGameHomePage.Unmount | src/pages/play-game/playGameHome.tsx:179-185 | the search is cancelled exactly when matchmaking was in progress; only the request list changes |
| PlayGameHome.PlayGameHomePage.HandleAnimationComplete | src/pages/play-game/playGameHome.tsx:187-195 | with a match card, the active match is recorded and its page opened; otherwise nothing happens; only the session and the navigations can change |
| PlayGameHome.PlayGameHomePage.HandleOpponentMatching | src/pages/play-game/playGameHome.tsx:199-211 | opponent mode with nothing invited; one search request; matchmaking continues exactly when the search succeeds; nothing else changes |
| PlayGameHome.PlayGameHomePage.HandleCancelMatchmaking | src/pages/play-game/playGameHome.tsx:213-223 | matchmaking stops and the invitation is cleared before the cancel request, whatever its outcome; nothing else changes |
| PlayGameHome.PlayGameHomePage.HandleFriendInvite | src/pages/play-game/playGameHome.tsx:225-231 | friend mode with the invited user and notification id; matchmaking on and the friend picker closed; no request and nothing else changes |
| PlayGameMatch.MarkCompleted | src/pages/play-game/playGameMatch.tsx:56-141 | null stays null; otherwise the state becomes "COMPLETED" and every other field is kept |
| PlayGameMatch.MarkCompletedIdempotent | src/pages/play-game/playGameMatch.tsx:56-106 | completing twice is completing once |
| PlayGameMatch.RelevantOf | src/pages/play-game/playGameMatch.tsx:90-94 | exactly the unread MATCH_COMPLETED and USER_RESIGNED entries for this match |
| PlayGameMatch.ResignedSchedulesNothing | src/pages/play-game/playGameMatch.tsx:105-107 | USER_RESIGNED entries never schedule a results fetch |
| PlayGameMatch.CompletedStaysInactive | src/pages/play-game/playGameMatch.tsx:35-141 | once completed, no later handler but the initial load makes the match active again |
| PlayGameMatch.MatchPage.constructor | src/pages/play-game/playGameMatch.tsx:28-33 | no match data, no results, no modal, not processing |
| PlayGameMatch.MatchPage.IsMatchActive | src/pages/play-game/playGameMatch.tsx:35 | active exactly when the state is "ONGOING" |
| PlayGameMatch.MatchPage.RunMountEffect | src/pages/play-game/playGameMatch.tsx:37-48 | the previous run's cleanup clears the active match unless that run saw the match active; a truthy id then marks the user in a match and records it as active; only the requests, the session and the remembered activity change |
| PlayGameMatch.MatchPage.Unmount | src/pages/play-game/playGameMatch.tsx:43-47 | leaving clears the active match exactly when the last run saw the match inactive; nothing else but the remembered activity changes |
| PlayGameMatch.MatchPage.FetchAndShowResults | src/pages/play-game/playGameMatch.tsx:50-62 | no id: nothing; success: results shown, match completed, active match cleared, user set online; failure: only the request |
| PlayGameMatch.MatchPage.FetchInitialData | src/pages/play-game/playGameMatch.tsx:64-87 | the details fill the match data; a COMPLETED or RESIGNED match goes on to fetch its results and, on success, shows exactly those results, marks the match COMPLETED, clears the active match and sets the user online; on each path every other field is given |
| PlayGameMatch.MatchPage.OnNotifications | src/pages/play-game/playGameMatch.tsx:89-109 | any relevant entry (unread, this match, MATCH_COMPLETED or USER_RESIGNED) completes the match; one results fetch is scheduled per MATCH_COMPLETED entry among them; nothing else changes |
| PlayGameMatch.MatchPage.RunScheduledFetch | src/pages/play-game/playGameMatch.tsx:101-103 | a scheduled fetch comes due: one fewer pending, then exactly the outcome of fetching and showing the results, with the session clear on success |
| PlayGameMatch.MatchPage.HandleResignFromMatch | src/pages/play-game/playGameMatch.tsx:111-122 | resigns with the numeric id; on success completes the match and clears the active match; on failure rethrows and changes nothing but the request list |
| PlayGameMatch.MatchPage.HandleResignClick | src/pages/play-game/playGameMatch.tsx:134 | opens the resign modal; nothing else changes |
| PlayGameMatch.MatchPage.HandleConfirmResign | src/pages/play-game/playGameMatch.tsx:136-150 | resigns; success completes the match, clears the active match and closes the modal; failure alerts "Failed to resign."; processing ends either way; results, overlay and scheduled fetches kept |
| MatchState.FetchTarget | src/pages/match/MatchState.tsx:32-37 | logs are fetched exactly for a non-empty id that reads as a number other than 0, and for that number |
| MatchState.SortNewestFirst | src/pages/match/MatchState.tsx:45-47 | one player's submissions are reordered in place, newest first, as a permutation of the old ones |
| MatchState.FirstMine | src/pages/match/MatchState.tsx:69 | the first log whose trimmed, lower-cased name is the user's, or none |
| MatchState.FirstOther | src/pages/match/MatchState.tsx:70 | the first log whose normalised name is not the user's (an absent name counts as different), or none |
| MatchState.PairIndices | src/pages/match/MatchState.tsx:64-77 | no logs give no players; every index chosen is in range |
| MatchState.PairPutsUserLeft | src/pages/match/MatchState.tsx:67-74 | with the user's own log present it is on the left; the right is a log of someone else, or nothing when every log is the user's |
| MatchState.PairFallsBackToOrder | src/pages/match/MatchState.tsx:76 | without a user the first two logs are shown in order |
| MatchState.StatusTextOf | src/pages/match/MatchState.tsx:80-83 | RUNNING_ON_TEST gives a running text after the prefix "Running on Test "; any other status is shown by its display name |
| MatchState.RunningTextReadsBack | src/pages/match/MatchState.tsx:82 | the number after the prefix is the current test case, 0 when absent |
| MatchState.RunningTextReadsBackTotal | src/pages/match/MatchState.tsx:82 | the running text has one slash; after it and a space comes the total test count, 0 when absent |
| MatchState.MatchStatePage.constructor | src/pages/match/MatchState.tsx:20-21 | no logs, loading |
| MatchState.MatchStatePage.Start | src/pages/match/MatchState.tsx:32-40 | a bad id stops loading without a fetch; a good one fetches for its number |
| MatchState.MatchStatePage.ReceiveLogs | src/pages/match/MatchState.tsx:41-57 | an array response replaces the logs player by player, names and ranks kept, each player's submissions sorted newest first as a permutation; anything else keeps the logs; loading ends |
| Timer.FormatTime | src/components/match/Timer.tsx:86-91 | digits, a colon, then exactly two digits; at least two digits before the colon |
| Timer.ColonSplit | src/components/match/Timer.tsx:86-91 | two digit strings joined by a colon split back at the first colon into the same two strings |
| Timer.PadKeepsValue | src/components/match/Timer.tsx:90 | `padStart(2, '0')` keeps a digit string's value |
| Timer.FormatTimeReadsBack | src/components/match/Timer.tsx:86-91 | minutes·60 + seconds read back from the text is the number of whole seconds, with seconds below 60 |
| Timer.GetTimerColor | src/components/match/Timer.tsx:93-99 | neutral exactly when the match is over or no time is left; otherwise red under 5 minutes, amber under 15, green from 15 |
| Timer.ColourGrowsMoreUrgent | src/components/match/Timer.tsx:95-98 | while the match runs, less time left never shows a calmer colour |
| Timer.ClampToScreen | src/components/match/Timer.tsx:68-69 | never negative; a value inside the range is kept; never beyond a non-negative limit |
| Timer.DraggableTimer.constructor | src/components/match/Timer.tsx:17-24 | no time left, expanded, at (innerWidth − 220, 100), not dragging |
| Timer.DraggableTimer.CalculateTime | src/components/match/Timer.tsx:27-42 | nothing once the match is over; otherwise the time left is end − now when positive, else 0 and the expiry handler (if any) runs once more; only those two fields can change |
| Timer.DraggableTimer.RunCountdownEffect | src/components/match/Timer.tsx:26-49 | computes once, with the time left and expiry count of one calculation, and an interval keeps running exactly while the match is not over; position and drag state kept |
| Timer.DraggableTimer.MouseDown | src/components/match/Timer.tsx:51-57 | a press on the panel (not its button) starts a drag, clears the dragged flag and records the pointer offset; nothing else changes |
| Timer.DraggableTimer.MouseMove | src/components/match/Timer.tsx:60-72 | while dragging, the panel follows the pointer less the offset, clamped to [0, size − 50], and the press counts as a drag; otherwise nothing moves; nothing else changes |
| Timer.DraggableTimer.MouseUp | src/components/match/Timer.tsx:74 | the drag ends; nothing else changes |
| Timer.DraggableTimer.Minimize | src/components/match/Timer.tsx:129 | the panel is minimised in place; nothing else changes |
| Timer.DraggableTimer.ClickMinimized | src/components/match/Timer.tsx:107-111 | a click expands the icon unless the press that led to it dragged; nothing else changes |
| Timer.DragThenClick | src/components/match/Timer.tsx:51-111 | press, move, release and click on the minimised icon leave it minimised exactly when the pointer moved while dragging |
| ProblemValidation.FindOversized | src/utils/ValidationConstraints.tsx:25 | none exactly when no test input exceeds 100000 UTF-16 units; otherwise the first index that does |
| ProblemValidation.ValidateProblemData | src/utils/ValidationConstraints.tsx:10-29 | the error list is exactly the messages of the failed checks, in the order title, statement, solution, count, size |
| ProblemValidation.FailedChecksMeaning | src/utils/ValidationConstraints.tsx:10-29 | at most five errors; a check is listed iff it fails; each once, in the fixed order; no error exactly when every limit is met |
| PasswordRecovery.GetErrorMessage | src/pages/PasswordRecovery.tsx:41-43 | a thrown string is shown as is, or the default text when empty; reading `.message` of an undefined error throws |
| PasswordRecovery.ServerTextShown | src/pages/PasswordRecovery.tsx:41-43 | a non-empty server text reaches the user unchanged |
| PasswordRecovery.RecoveryWizard.constructor | src/pages/PasswordRecovery.tsx:23-36 | step 1, every field empty, no errors, not loading, no success message |
| PasswordRecovery.RecoveryWizard.HandleEmailSubmit | src/pages/PasswordRecovery.tsx:52-82 | an invalid email sets only the email error and calls nothing; otherwise one fetch, then step 2 with the question, or a Google account when the message mentions "google" in any case, or the message as the email error; a rethrown failure leaves the errors cleared; loading ends false |
| PasswordRecovery.RecoveryWizard.HandleAnswerSubmit | src/pages/PasswordRecovery.tsx:85-106 | an invalid answer sets only its error and calls nothing; otherwise one verification call, then step 3 or the message as the answer error; a rethrown failure leaves the errors cleared |
| PasswordRecovery.RecoveryWizard.HandlePasswordReset | src/pages/PasswordRecovery.tsx:109-152 | an invalid form sets exactly the field errors and calls, shows and schedules nothing; otherwise reset, then the success message and a login, then navigation; any failure becomes the global error, a rethrown one leaves the errors cleared |
| PasswordRecovery.FieldErrors | src/pages/PasswordRecovery.tsx:113-125 | "newPassword" holds the format error exactly when the format check fails, "confirmPassword" the match error exactly when the match check fails, no other key; empty exactly when the form is valid |
| PasswordRecovery.CollectFieldErrors | src/pages/PasswordRecovery.tsx:113-125 | the collected errors are the field errors |
| PasswordRecovery.RecoveryWizard.SubmitReset | src/pages/PasswordRecovery.tsx:131-151 | reset is called; on success the success message is shown and login is called, then navigation is scheduled; a failure of either becomes the global error, a rethrown one leaves the errors cleared; loading ends false |
| PasswordRecovery.RecoveryWizard.BackToEmailEntry | src/pages/PasswordRecovery.tsx:186-191 | back to step 1 with the Google prompt and errors cleared; nothing else changes |
| PasswordRecovery.ClearFieldError | src/pages/PasswordRecovery.tsx:211 | the field's shown error is blanked; the keys and every other entry stay |
| PasswordRecovery.RecoveryWizard.BackToEmailStep | src/pages/PasswordRecovery.tsx:268-271 | back to step 1 with every error cleared |
| PasswordRecovery.RecoveryWizard.ChangeEmail | src/pages/PasswordRecovery.tsx:209-212 | the email is the typed value and its shown error is blanked |
| PasswordRecovery.RecoveryWizard.ChangeRecoveryAnswer | src/pages/PasswordRecovery.tsx:248-251 | the answer is the typed value and its shown error is blanked |
| PasswordRecovery.RecoveryWizard.ChangeNewPassword | src/pages/PasswordRecovery.tsx:302-305 | the new password is the typed value and its shown error is blanked |
| PasswordRecovery.RecoveryWizard.ChangeConfirmPassword | src/pages/PasswordRecovery.tsx:312-315 | the confirmation is the typed value and its shown error is blanked |
| ProblemInfo.ToggleTopic | src/pages/suggestProblem/ProblemInfo.tsx:59-63 | the tag is selected afterwards exactly when it was not before; every other tag keeps its count |
| ProblemInfo.ToggleTopicTwice | src/pages/suggestProblem/ProblemInfo.tsx:59-63 | selecting an unselected topic and then deselecting it restores the list |
| ProblemInfo.FilterDropsLast | src/pages/suggestProblem/ProblemInfo.tsx:61 | filtering out a tag that was just appended to a list without it gives back that list |
| ProblemInfo.FormatTagName | src/pages/suggestProblem/ProblemInfo.tsx:194-196 | same length as the tag; underscores become spaces, each word keeps its first character and lower-cases the rest |
| ProblemInfo.IssueIf | src/pages/suggestProblem/ProblemInfo.tsx:108-126 | a single check pushes its message exactly when it fails, and nothing else |
| ProblemInfo.FormatIssue | src/pages/suggestProblem/ProblemInfo.tsx:114-118 | at most one message for an input or output format: 'required' exactly when blank, 'too long' exactly when non-blank and over 2000 UTF-16 units |
| ProblemInfo.DraftIssues | src/pages/suggestProblem/ProblemInfo.tsx:108-123 | the statement and solution checks never report a test-case count |
| ProblemInfo.TextIssues | src/pages/suggestProblem/ProblemInfo.tsx:108-112 | the title and statement checks never report a test-case count |
| ProblemInfo.FormatIssues | src/pages/suggestProblem/ProblemInfo.tsx:114-120 | the format and notes checks never report a test-case count |
| ProblemInfo.SolutionIssues | src/pages/suggestProblem/ProblemInfo.tsx:122-123 | the solution checks never report a test-case count |
| ProblemInfo.RunIssues | src/pages/suggestProblem/ProblemInfo.tsx:149-155 | the run-state message never reports a test-case count |
| ProblemInfo.CheckDraft | src/pages/suggestProblem/ProblemInfo.tsx:107-123 | pushes exactly the statement and solution issues, in order |
| ProblemInfo.CheckText | src/pages/suggestProblem/ProblemInfo.tsx:108-112 | the pushes give exactly the title and statement issues, in order |
| ProblemInfo.CheckFormats | src/pages/suggestProblem/ProblemInfo.tsx:114-120 | the pushes give exactly the format and notes issues, in order |
| ProblemInfo.CheckSolution | src/pages/suggestProblem/ProblemInfo.tsx:122-123 | the pushes give exactly the solution issues, in order |
| ProblemInfo.ScanTestCases | src/pages/suggestProblem/ProblemInfo.tsx:134-147 | the size messages of the oversized cases in index order; the unrun flag iff some case has no output; the compile flag iff some output starts with "Compilation Error" |
| ProblemInfo.CheckRunState | src/pages/suggestProblem/ProblemInfo.tsx:149-155 | at most one message: unrun cases first, then changed code, then a compilation error, each exactly under its condition |
| ProblemInfo.RunIssuesUnique | src/pages/suggestProblem/ProblemInfo.tsx:149-155 | a list of at most one run-state message fixed by those conditions is the run-state message |
| ProblemInfo.ValidateSuggestionAsWritten | src/pages/suggestProblem/ProblemInfo.tsx:107-155 | the issue list the page builds, count checks made twice |
| ProblemInfo.ValidateSuggestion | src/pages/suggestProblem/ProblemInfo.tsx:107-155 | the issue list with the count checked once |
| ProblemInfo.SizeIssuesFacts | src/pages/suggestProblem/ProblemInfo.tsx:137-138 | the size messages name exactly the cases whose input exceeds 100000 UTF-16 units, by index |
| ProblemInfo.CountMessagesFromCountChecks | src/pages/suggestProblem/ProblemInfo.tsx:125-132 | the count messages in the full list are exactly those of the count checks |
| ProblemInfo.CountMessageDuplicated | src/pages/suggestProblem/ProblemInfo.tsx:125-132 | as written, no test cases gives "At least one test case is required." twice, and more than ten gives the maximum message twice |
| ProblemInfo.CountMessageOnce | src/pages/suggestProblem/ProblemInfo.tsx:125-132 | checked once, each count message appears once exactly when its condition holds, else never |
| ProblemInfo.NoIssuesIffAcceptable | src/pages/suggestProblem/ProblemInfo.tsx:107-161 | the suggestion is held back exactly when one of its limits or run-state conditions fails |
| ProblemInfo.OneRunStateMessage | src/pages/suggestProblem/ProblemInfo.tsx:149-155 | at most one run-state message; an unrun case always yields the 'Run Test Cases' message |
| ProblemInfo.ProblemInfoForm.constructor | src/pages/suggestProblem/ProblemInfo.tsx:26-38 | no topics, no code, no messages, not submitting, nothing sent |
| ProblemInfo.ProblemInfoForm.HandleTopicToggle | src/pages/suggestProblem/ProblemInfo.tsx:59-63 | the topics become the toggled list and nothing else changes |
| ProblemInfo.ProblemInfoForm.HandleSuggestProblem | src/pages/suggestProblem/ProblemInfo.tsx:86-161 | the issues returned are exactly the corrected suggestion issues (the count message once) for the current code; the form then shows them as `ShownError` does, sends only when there are none, and is not submitting at the end |
| ProblemInfo.ProblemInfoForm.Respond | src/pages/suggestProblem/ProblemInfo.tsx:88-161 | messages cleared; the error line is every issue's message joined by spaces, and one suggestion is sent exactly when there is no issue; not submitting at the end |
| ProblemInfo.ShownError | src/pages/suggestProblem/ProblemInfo.tsx:155-158 | empty with no issue; otherwise the messages joined with single spaces |
| TestCases.AddTestCase | src/pages/suggestProblem/TestCases.tsx:40-45 | the old list unchanged, then one visible case with the fresh id, empty input and no output |
| TestCases.RemoveTestCase | src/pages/suggestProblem/TestCases.tsx:47-49 | no case with the id remains; every other case keeps its count; the rest stay in order |
| TestCases.UpdateTestCase | src/pages/suggestProblem/TestCases.tsx:51-55 | same length; only the input of the cases with the id changes, to the new value |
| TestCases.ToggleVisibility | src/pages/suggestProblem/TestCases.tsx:57-61 | same length; only the visibility of the cases with the id flips |
| TestCases.ToggleTwice | src/pages/suggestProblem/TestCases.tsx:57-61 | toggling twice restores the list |
| TestCases.UpdateAfterAdd | src/pages/suggestProblem/TestCases.tsx:40-55 | editing a case just added under a fresh id fills in its input and leaves the rest |
| TestCases.CompilationErrorOf | src/pages/suggestProblem/TestCases.tsx:90-97 | none exactly when no output starts with "Compilation Error"; otherwise such an output |
| TestCases.FirstCompilationError | src/pages/suggestProblem/TestCases.tsx:90-97 | the loop with `break` finds the first output starting with "Compilation Error", or none when there is none |
| TestCases.MergeOutputs | src/pages/suggestProblem/TestCases.tsx:99-102 | ids, inputs and visibility kept; every case gets the compilation error when there is one, else its own output, missing when the service returned fewer |
| TestCases.ServiceErrorTextAsWritten | src/pages/suggestProblem/TestCases.tsx:111 | as written, any thrown string shows the default text; an undefined error throws |
| TestCases.ServerTextLost | src/pages/suggestProblem/TestCases.tsx:111 | as written, the server's text is never the message shown |
| TestCases.ServiceErrorText | src/pages/suggestProblem/TestCases.tsx:111 | as intended: the thrown text, or the default when it is empty |
| TestCases.ServerTextShown | src/pages/suggestProblem/TestCases.tsx:111 | as intended, the shown text is never empty and is the server's text when it has one |
| TestCases.TestCasesPanel.constructor | src/pages/suggestProblem/TestCases.tsx:22-25 | no cases, no messages, not running, nothing saved or sent |
| TestCases.TestCasesPanel.AddCase | src/pages/suggestProblem/TestCases.tsx:40-45 | the list becomes the list with a fresh case appended |
| TestCases.TestCasesPanel.RemoveCase | src/pages/suggestProblem/TestCases.tsx:47-49 | the list loses the cases with the id |
| TestCases.TestCasesPanel.UpdateCase | src/pages/suggestProblem/TestCases.tsx:51-55 | the list gets the new input for the id |
| TestCases.TestCasesPanel.ToggleCase | src/pages/suggestProblem/TestCases.tsx:57-61 | the list gets the visibility of the id flipped |
| TestCases.TestCasesPanel.HandleSave | src/pages/suggestProblem/TestCases.tsx:119-133 | the list is stored as it is, the error is cleared and the success message shown |
| TestCases.TestCasesPanel.RunTestCases | src/pages/suggestProblem/TestCases.tsx:63-117 | missing info or a blank solution sets only its error and sends nothing; otherwise the solution is sent; on success every case gets its merged output, the list is saved and the solution becomes the last compiled code; on failure only the error is set, with the corrected text selection; the save message is cleared on every other path and nothing runs at the end |
| Tags.TablesInverse | src/utils/mapTags.tsx:3-45 | the tag-to-label and label-to-tag tables are mutually inverse |
| Tags.ValueRoundTrip | src/utils/mapTags.tsx:3-23 | a tag's server value denotes that tag, and a recognised value is that tag's value |
| Tags.AllTagsListsEveryTag | src/utils/mapTags.tsx:48-50 | the enum listing holds every tag |
| Tags.TagsFrontendValues | src/utils/mapTags.tsx:48-50 | one label per tag, in enum order |
| Tags.Labels | src/utils/mapTags.tsx:3-23 | one label per tag, pointwise |
| Tags.MapFrontendTagsToEnum | src/utils/mapTags.tsx:52-56 | never longer than the selection |
| Tags.MapKeepsLabelsWithEntries | src/utils/mapTags.tsx:52-56 | the result is exactly the selected names that have a table entry, in order, each turned into its tag |
| Tags.LabelsRoundTrip | src/utils/mapTags.tsx:3-56 | showing tags as labels and mapping them back gives the same tags |
| Tags.DisplayTag | src/utils/mapTags.tsx:3-23 | a known server value is shown as its label; an unknown one as it is |
| Dropdowns.FilterBySearch | src/components/common/SingleSelectDropDown.tsx:25-27 | every kept option contains the search, ignoring case; each such option keeps its count and the rest are dropped; order kept |
| Dropdowns.EmptySearchKeepsAll | src/components/common/SingleSelectDropDown.tsx:25-27 | an empty search lists every option |
| Dropdowns.ReorderedOptions | src/components/common/TagsMultiSelectDropDown.tsx:24-27 | the reordered list holds exactly the options |
| Dropdowns.ReorderMembership | src/components/common/TagsMultiSelectDropDown.tsx:24-27 | selected options then unselected ones cover exactly the options |
| Dropdowns.ReorderIsPermutation | src/components/common/TagsMultiSelectDropDown.tsx:24-27 | without repeats, reordering is a permutation of the options |
| Dropdowns.ToggleItem | src/components/common/TagsMultiSelectDropDown.tsx:45-51 | the option is selected afterwards exactly when it was not; every other value keeps its count |
| Dropdowns.ToggleTwiceRestores | src/components/common/TagsMultiSelectDropDown.tsx:45-51 | selecting an unselected option and deselecting it restores the selection |
| Dropdowns.EnterAddsAnOption | src/components/common/TagsMultiSelectDropDown.tsx:53-64 | Enter only adds an option, and a selection without repeats stays without repeats |
| Dropdowns.MultiSelect.constructor | src/components/common/TagsMultiSelectDropDown.tsx:19-20 | closed, empty search, nothing reported |
| Dropdowns.MultiSelect.ToggleClicked | src/components/common/TagsMultiSelectDropDown.tsx:45-51 | reports the toggled selection; search and open flag kept |
| Dropdowns.MultiSelect.HandleEnter | src/components/common/TagsMultiSelectDropDown.tsx:53-64 | other keys or an empty list change nothing; otherwise the first listed entry is reported in front of the selection unless already selected, and the search is cleared |
| Dropdowns.MultiSelect.EnterOn | src/components/common/TagsMultiSelectDropDown.tsx:54-63 | the same on a given list on screen |
| Dropdowns.MultiSelect.ToggleOpen | src/components/common/TagsMultiSelectDropDown.tsx:72 | the open flag flips |
| Dropdowns.MultiSelect.SetSearch | src/components/common/TagsMultiSelectDropDown.tsx:93 | the search becomes the typed text |
| Dropdowns.MultiSelect.ClickOutside | src/components/common/TagsMultiSelectDropDown.tsx:34-43 | a press outside closes the list and clears the search |
| Dropdowns.SingleSelect.constructor | src/components/common/SingleSelectDropDown.tsx:21-22 | closed, empty search, nothing reported |
| Dropdowns.SingleSelect.SelectItem | src/components/common/SingleSelectDropDown.tsx:40-44 | reports the option, closes and clears the search |
| Dropdowns.SingleSelect.ClearSelection | src/components/common/SingleSelectDropDown.tsx:46-48 | reports no selection; nothing else changes |
| Dropdowns.SingleSelect.ToggleOpen | src/components/common/SingleSelectDropDown.tsx:64 | the open flag flips |
| Dropdowns.SingleSelect.SetSearch | src/components/common/SingleSelectDropDown.tsx:107 | the search becomes the typed text |
| Dropdowns.SingleSelect.ClickOutside | src/components/common/SingleSelectDropDown.tsx:29-38 | a press outside closes the list and clears the search |
| Dropdowns.SingleSelect.HandleEnter | src/components/common/SingleSelectDropDown.tsx:50-56 | other keys or no match change nothing; otherwise the first option containing the search (ignoring case) is selected, the list closed and the search cleared |
| Difficulty.GetDifficultyColor | src/utils/getDifficultyColor.tsx:3-7 | easy exactly up to 900, medium exactly above 900 up to 1600, hard exactly above 1600 |
| Difficulty.ColorMonotone | src/utils/getDifficultyColor.tsx:3-7 | a higher difficulty never gets an easier colour |
| Difficulty.Clamp | src/components/common/DifficultySelector.tsx:17-24 | always within [100, 2000]; a value already in range is kept; zero or a non-number gives 100; above 2000 gives 2000 |
| Difficulty.ClampIdempotent | src/components/common/DifficultySelector.tsx:17-24 | clamping a clamped value changes nothing, so Enter followed by the blur it causes reports the same value |
| Difficulty.Reported | src/components/common/DifficultySelector.tsx:26-60 | typing reports the number as typed; blur and Enter report it clamped; any other key reports nothing |
| Difficulty.InRangeCommitsUnchanged | src/components/common/DifficultySelector.tsx:17-48 | a difficulty in range, typed and committed, is reported unchanged |
| ProblemRow.MapProblemDtoToProblemRow | src/utils/mapProblemDtoToProblemRow.tsx:6-17 | id, title, rate and submission count copied into their fields; status Unsolved; each tag shown through the label table |
| ProblemRow.DisplayTags | src/utils/mapProblemDtoToProblemRow.tsx:10-12 | one shown tag per tag, pointwise |
| ProblemRow.RowTagsReadBack | src/utils/mapProblemDtoToProblemRow.tsx:10-12 | a known tag's label maps back to that tag; an unknown tag is shown as sent |
| UserRows.MapUserDtoToRowProps | src/utils/mapUserManagementDtoToRow.tsx:4-18 | order is page × size + index + 1 with size 20 when not given; the user's fields copied |
| UserRows.OrdersAreDistinct | src/utils/mapUserManagementDtoToRow.tsx:11 | on pages of a positive size, two rows share an order exactly when they share page and index; the next index gets the next order |
| UserRows.SamePosition | src/utils/mapUserManagementDtoToRow.tsx:11 | equal orders with indices inside the page mean the same page and index |
| Routes.HasAnyRole | src/utils/rolesChecker.tsx:4-8 | true exactly when the user has a non-empty role that is one of the required roles |
| Routes.MoreRolesNeverRevoke | src/utils/rolesChecker.tsx:4-8 | adding required roles never takes access away |
| Routes.FilteredRoutes | src/hooks/useFilteredRoutes.tsx:5-13 | the shown routes keep their order, each is not hidden and either needs no role or matches the user's role, and every such route is kept as often as it occurs |
| Routes.ListedIff | src/hooks/useFilteredRoutes.tsx:7-11 | a route is listed exactly when it is among the routes, not hidden, and needs no role or one the user has |

## Left out

- **STOMP client internals.** Activation, heartbeats and the library's reconnect delay are not modelled. The client is a `connected` flag, and its callbacks are event methods.
- **Timers and scheduling** are not modelled. Each handler run is an atomic event. This covers:
  - the 1 s delayed subscribe;
  - the 5 s toast dismissal;
  - the delayed results fetch;
  - polling;
  - the 1200 ms navigation after a password reset;
  - the 3 s clearing of save messages.
- **React rendering semantics** are not modelled: effect ordering, StrictMode double invocation and memoisation.
- **Clock, randomness and locale.**
  - `Date.now`/`Math.random` ids and the clock are parameters.
  - Date parsing and locale formatting are left out. This includes `toLocaleString` and the final, date-formatting branch of `formatTimeAgo`, which the model returns as `None`.
- **JWT decoding** (base64, URI decoding, JSON) is a foreign call. The username and the role are inputs.
- **REST service wrappers** are thin HTTP plumbing. Their results are inputs to the handlers.
- **Persistence and JSON.**
  - localStorage and sessionStorage persistence and JSON parse failures are left out.
  - The suggest-problem drafts arrive as already-parsed values.
  - The test-case tab's mount effect, which loads the saved list or adds a first case, is left out.
  - The problem-info tab's `handleSave` and `handleClearAll`, which only write storage, confirm and reload, are left out.
- **Number forms.** JavaScript `Number(...)` is modelled only on optional-sign digit strings; exponents, hexadecimal and fractions are left out. Dafny's unbounded integers replace IEEE doubles, which is exact for the integer ranges these screens use.
- **Record lookups.** Lookups into object-literal tables ignore keys inherited from `Object.prototype`.
- **Runtime types.** An undefined `solutionCode` reaching `.trim()` in the run-state check, and a non-string test-case input, are excluded by the types of the model.
- **The React Router blocker object** is reduced to its state (idle, blocked, proceeding) and the held location.
- **The Google sign-in redirect** (`handleGoogleLogin`) only sets a session flag and changes `window.location`, so it is left out.
- **After a suggestion passes its checks**, the service call, the alert, the storage clean-up, the reload and the failure message of `handleSuggestProblem` are not modelled. `HandleSuggestProblem` counts a sent suggestion instead.
- **Window size** is a parameter of the drag handlers.
- **Tag values.** The `ProblemTags` enum file is not part of this model. Each tag's server value is taken to be its constant name, in the order the tables list them.
- **Case and whitespace.** `toLowerCase` is modelled on ASCII letters only. White space follows the set JavaScript's `trim` and `\s` use.
- MatchState.SortNewestFirst: states newest-first order and a permutation, not the stability of `Array.prototype.sort`, so submissions with equal times may end in any order.
- **String lengths** are counted as JavaScript's `.length` does, in UTF-16 code units (`Text.JsLength`): a character outside the Basic Multilingual Plane counts twice. Lone surrogates, which a Dafny string cannot hold, are left out.
- TestCases.TestCasesPanel.RunTestCases: on a failed run it shows the corrected text of the first finding below (the server's text), where the page as written always shows "An unexpected error occurred."; the as-written selection is `TestCases.ServiceErrorTextAsWritten`.
- ProblemInfo.ProblemInfoForm.HandleSuggestProblem: it validates with the corrected list of the second finding below (the count message once), where the page as written lists the count message twice for zero test cases and the maximum message twice for more than ten; the as-written list is `ProblemInfo.ValidateSuggestionAsWritten`.
- MatchNavigationGuard.NavigationGuard.RequestNavigation: it decides with the corrected blocker of the third finding below, where the page as written throws on every navigation while the guard is mounted; the as-written blocker is `MatchNavigationGuard.ShouldBlockNavigationAsWritten`.
- MatchNavigationGuard.ShouldBlockNavigation: the evidently intended predicate, not the code as written, which throws (third finding below).

## Findings

| source | as written | input that shows it | evidently intended | confidence | as-written member | corrected member |
|---|---|---|---|---|---|---|
| src/pages/suggestProblem/TestCases.tsx:111 | the failure text is read from `error.response?.data?.message` or `error.message`, but the HTTP client throws a plain string, which has neither | any failed run whose server text is non-empty, e.g. the thrown string "Time limit exceeded" | show the server's text, and fall back to "An unexpected error occurred." only when there is none | high, not executed | TestCases.ServerTextLost | TestCases.ServerTextShown |
| src/pages/suggestProblem/ProblemInfo.tsx:125-132 | the test-case count is checked twice, once by two single `if`s and again by an `if`/`else` | a suggestion with no test cases lists "At least one test case is required." twice, and one with eleven cases lists the maximum message twice | each count message appears once | high, not executed | ProblemInfo.CountMessageDuplicated | ProblemInfo.CountMessageOnce |
| src/routes/MatchNavigationGuard.tsx:24 | the blocker function reads `nextLocation.location.pathname`, but its parameter is the router's argument object `{ currentLocation, nextLocation, historyAction }`, which has no `location` property | any navigation while the guard is mounted, e.g. from "/play-game/7" to "/home": reading `.pathname` of `undefined` throws a TypeError, whether or not a match is stored | read the `pathname` of the argument's `nextLocation` and block only when leaving a match route with a stored id | high, not executed | MatchNavigationGuard.BlockerThrowsAsWritten | MatchNavigationGuard.CorrectedBlockerDecides |

In all three findings the rest of the model uses the corrected definition:

- `TestCasesPanel.RunTestCases` uses `ServiceErrorText`.
- `ProblemInfoForm.HandleSuggestProblem` uses `ValidateSuggestion`.
- `NavigationGuard.RequestNavigation` uses `ShouldBlockNavigation`, which `CorrectedBlockerDecides` ties to the argument the router passes.

The as-written definitions are `ServiceErrorTextAsWritten`, `ValidateSuggestionAsWritten` and `ShouldBlockNavigationAsWritten`.
