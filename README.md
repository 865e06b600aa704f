# LiveView Jetpack client: connection orchestrator and common attribute handling

This project is a Dafny model of two parts of the Android LiveView client (`liveview-client-jetpack`).

**The connection orchestrator `SocketManager`** owns two socket/channel pairs: the application pair and the live-reload pair. The model covers:

- the socket query string, built by a fold over the fixed parameter list;
- the two endpoint URLs and the two topics;
- the nested join parameters, carrying the client id fixed at construction;
- tearing down the previous sockets before building new ones;
- the join-reply, inbound-message and live-reload handlers;
- the fallback markup emitted on a transport error;
- forwarding outbound actions to the current channel.

The Phoenix `Socket` and `Channel` are abstract recorded objects (module `Transport`). A socket records its URL and whether it was opened or disconnected. A channel records its socket, topic, join parameters, a join flag and the pushes sent on it. The transport callbacks are methods of the class that a caller invokes with what the transport would deliver.

**The attribute handling shared by every composable** (`ComposableView.kt`) covers:

- the phx-value map and the value it exposes;
- merging an "on changed" value into that map;
- the `value` setter and the scrolling flags;
- `handleFraction`;
- the classification of `size`, `width`, `height`, the three paddings, `background` and `aspectRatio` strings into modifier elements;
- the name dispatch of `handleCommonAttributes`.

A Compose `Modifier` is modelled as the sequence of its elements, and `then` appends an element. A percentage is an integer: `75%` gives 75, where the source computes the float 0.75.

Files:

- `wrappers.dfy` defines `Option`.
- `transport.dfy` defines the abstract socket, channel and JSON payload.
- `socket_manager.dfy` holds the wire-format functions and the `SocketManager` class.
- `composable_view.dfy` holds the phx-value and classification functions, their lemmas, and the `ComposableBuilder` class.

## Model

| member | source | states |
|---|---|---|
| SocketManager.FoldQuery | liveview-android/src/main/java/org/phoenixframework/liveview/managers/SocketManager.kt:48-51 | The accumulator fold over the entries yields their `key=value&` pieces concatenated in list order (loop invariant over the prefix folded so far). |
| SocketManager.ConcatEntriesSnoc | liveview-android/src/main/java/org/phoenixframework/liveview/managers/SocketManager.kt:48-51 | Folding one more entry appends exactly that entry's `key=value&`, which ties the left fold to the right-recursive definition. |
| SocketManager.SocketQueryLiteral | liveview-android/src/main/java/org/phoenixframework/liveview/managers/SocketManager.kt:41-51 | The socket query is exactly `_csrf_token=<t>&_mounts=0&client_id=<id>&_platform=android&`: fixed order, every entry (the last too) ending in `&`. |
| SocketManager.PrimaryUrlLiteral | liveview-android/src/main/java/org/phoenixframework/liveview/managers/SocketManager.kt:41-56 | The application socket URL is `<base>/live/websocket?` followed by that exact query. |
| SocketManager.JoinParams | liveview-android/src/main/java/org/phoenixframework/liveview/managers/SocketManager.kt:78-88 | The application join parameters have exactly the keys session, static, url, params. Their values are the page tokens and base URL. `params` has exactly `_mounts`=0, `_csrf_token`, `_platform`="android" and `client_id`=the client id. |
| SocketManager.ErrorMarkupLayout | liveview-android/src/main/java/org/phoenixframework/liveview/managers/SocketManager.kt:159-177 | The fallback markup is one `<column>` whose first `<text width=fill padding=16>` block holds the raw message. A second block with the fixed guidance text follows exactly for a connect failure. |
| SocketManager.ErrorMarkupGeneric | liveview-android/src/main/java/org/phoenixframework/liveview/managers/SocketManager.kt:170-176 | For a non-connect error with message "boom", the markup is the literal one-block column. |
| SocketManager.SocketManager.constructor | liveview-android/src/main/java/org/phoenixframework/liveview/managers/SocketManager.kt:16-29 | A new orchestrator fixes its client id and has no sockets, channels or listeners. Nothing has been emitted, and the class invariant holds. |
| SocketManager.SocketManager.SetDomParsedListener | liveview-android/src/main/java/org/phoenixframework/liveview/managers/SocketManager.kt:28 | Assigning the `lateinit` document listener marks it set. |
| SocketManager.SocketManager.SetLiveReloadListener | liveview-android/src/main/java/org/phoenixframework/liveview/managers/SocketManager.kt:29 | The nullable live-reload listener is present exactly when assigned a non-null value. |
| SocketManager.SocketManager.DisconnectSockets | liveview-android/src/main/java/org/phoenixframework/liveview/managers/SocketManager.kt:36-37 | Each existing previous socket is disconnected, live-reload first, and recorded as superseded, each request entering the trace as its call is made. Afterwards every socket ever built is superseded. Absent sockets give no request. |
| SocketManager.SocketManager.NewSockets | liveview-android/src/main/java/org/phoenixframework/liveview/managers/SocketManager.kt:41-61 | Two fresh, not yet opened sockets: the application one on the URL with the query built from this object's client id, and the live-reload one on `<base>/phoenix/live_reload/socket`. Each construction enters the trace and the record of built sockets right after it happens, application socket first. |
| SocketManager.SocketManager.NewChannels | liveview-android/src/main/java/org/phoenixframework/liveview/managers/SocketManager.kt:78-97 | A fresh application channel on `lv:<phxId>` with the join parameters, and a fresh live-reload channel on `phoenix:live_reload` without parameters, each bound to its socket and not yet joined. Each construction enters the trace and the record of built channels right after it happens, application channel first. |
| SocketManager.SocketManager.JoinAndConnect | liveview-android/src/main/java/org/phoenixframework/liveview/managers/SocketManager.kt:99-181 | Both channels have requested their join, with no push sent, and both sockets are opening. The trace gains exactly join(app), join(live-reload), connect(app), connect(live-reload), each appended right after its call. |
| SocketManager.SocketManager.InstallPairs | liveview-android/src/main/java/org/phoenixframework/liveview/managers/SocketManager.kt:53-61 | The freshly built pairs become the current fields and the class invariant holds: every other socket ever built is superseded. |
| SocketManager.SocketManager.BuildPairs | liveview-android/src/main/java/org/phoenixframework/liveview/managers/SocketManager.kt:41-97 | Both fresh pairs are built, sockets first, then channels, and made current: exact URLs, topics and join parameters, nothing opened or joined yet, the four constructions in order in the trace, and the invariant holds. |
| SocketManager.SocketManager.OpenSockets | liveview-android/src/main/java/org/phoenixframework/liveview/managers/SocketManager.kt:41-181 | Fresh pairs with the exact URLs, topics and join parameters. Both channels have joined and both sockets are opening. Because each request is recorded when it is made, the trace proves the source order: both sockets, both channels, both joins, both connects. |
| SocketManager.SocketManager.ConnectToChatRoomWithParams | liveview-android/src/main/java/org/phoenixframework/liveview/managers/SocketManager.kt:32-182 | The previous sockets end disconnected, and their disconnect requests precede every construction in the trace. Then the fresh pairs carry the exact URLs, topics and join parameters with the same client id, and both are joined and opening. Documents, listeners and mapper calls lie outside its frame, so they are untouched. The invariant holds, so at most one pair is live. |
| SocketManager.SocketManager.OnJoinReply | liveview-android/src/main/java/org/phoenixframework/liveview/managers/SocketManager.kt:99-114 | A join "ok" emits the mapper's document for the payload exactly once. "error", "response" and any other status emit nothing and call nothing. |
| SocketManager.SocketManager.OnMessage | liveview-android/src/main/java/org/phoenixframework/liveview/managers/SocketManager.kt:116-135 | `phx_reply` parses the diff and emits the result only when there is one. `diff` only calls `extractDiff(payload)`. Any other event does nothing. The message is returned unchanged. |
| SocketManager.SocketManager.OnLiveReloadMessage | liveview-android/src/main/java/org/phoenixframework/liveview/managers/SocketManager.kt:141-152 | The live-reload listener runs once exactly for `assets_change` when a listener is set. The message is returned unchanged. |
| SocketManager.SocketManager.OnTransportError | liveview-android/src/main/java/org/phoenixframework/liveview/managers/SocketManager.kt:155-178 | Exactly one document is emitted: the parse of the fallback markup for the error kind and message. A missing message renders as `null`. |
| SocketManager.SocketManager.Push | liveview-android/src/main/java/org/phoenixframework/liveview/managers/SocketManager.kt:189-194 | With a current channel, exactly `(event, payload)` is appended to its pushes and its join state is untouched. With none, nothing is sent. |
| SocketManager.SocketManager.PushChannelMessage | liveview-android/src/main/java/org/phoenixframework/liveview/managers/SocketManager.kt:185-187 | The action's event and payload are pushed on the current channel, if any. |
| ComposableView.PhxValueCases | liveview-android/src/main/java/org/phoenixframework/liveview/domain/base/ComposableView.kt:123-130 | `phxValue` is null exactly for an empty map. It is the bare entry when `value` is the only key, and the whole map otherwise. |
| ComposableView.MergeCases | liveview-android/src/main/java/org/phoenixframework/liveview/domain/base/ComposableView.kt:85-109 | There are four outcomes. With nothing bound: the bare value for key `value`, or `{key: value}`. With only `value` bound and key `value`: the bare value. Otherwise: the map with `key` set and all other entries kept. |
| ComposableView.MergeIsPhxValueOfUpdate | liveview-android/src/main/java/org/phoenixframework/liveview/domain/base/ComposableView.kt:85-130 | The merged value equals what `phxValue` exposes once `key` is bound to `value`. |
| ComposableView.DecimalRoundTrip | liveview-android/src/main/java/org/phoenixframework/liveview/domain/base/ComposableView.kt:164 | A number written in decimal is a non-empty digit string that `toInt` reads back as the number. |
| ComposableView.HandleFractionOfDecimal | liveview-android/src/main/java/org/phoenixframework/liveview/domain/base/ComposableView.kt:253-262 | A number followed by one sign character reads back as that number. |
| ComposableView.HandleFractionCharacterized | liveview-android/src/main/java/org/phoenixframework/liveview/domain/base/ComposableView.kt:253-262 | A fraction is produced exactly when a non-empty digit string precedes the last character, and it is that string's value. |
| ComposableView.HandleFractionRejectsShort | liveview-android/src/main/java/org/phoenixframework/liveview/domain/base/ComposableView.kt:254 | A string of at most one character (`%` alone) gives no fraction. |
| ComposableView.SizeClassified | liveview-android/src/main/java/org/phoenixframework/liveview/domain/base/ComposableView.kt:160-170 | `size` adds an element exactly for digit strings, `fill` and `wrap`. A number n gives exactly n dp. A percentage adds nothing. |
| ComposableView.WidthClassified | liveview-android/src/main/java/org/phoenixframework/liveview/domain/base/ComposableView.kt:278-296 | `width` reads digits as dp and the four keywords as their modes, and a valid `<digits>%` as a fraction. It adds an element for nothing else; `%` alone adds nothing. |
| ComposableView.HeightClassified | liveview-android/src/main/java/org/phoenixframework/liveview/domain/base/ComposableView.kt:234-251 | The same classification for `height`. |
| ComposableView.WidthOfPercent | liveview-android/src/main/java/org/phoenixframework/liveview/domain/base/ComposableView.kt:287-291 | `<n>%` fills exactly n percent of the width. |
| ComposableView.HeightOfPercent | liveview-android/src/main/java/org/phoenixframework/liveview/domain/base/ComposableView.kt:243-247 | `<n>%` fills exactly n percent of the height. |
| ComposableView.PaddingClassified | liveview-android/src/main/java/org/phoenixframework/liveview/domain/base/ComposableView.kt:180-218 | Each padding adds an element exactly for non-empty digit strings. The number n pads the chosen edges by n dp. |
| ComposableView.NonEmptyClassified | liveview-android/src/main/java/org/phoenixframework/liveview/domain/base/ComposableView.kt:383-408 | `background` and `aspectRatio` add an element carrying the string exactly when it is non-empty. |
| ComposableView.PhxValueKeyNamed | liveview-android/src/main/java/org/phoenixframework/liveview/domain/base/ComposableView.kt:343-354 | `phx-value` binds key `value` and `phx-value-<k>` binds `<k>`. No other name binds a key. |
| ComposableView.ComposableBuilder.constructor | liveview-android/src/main/java/org/phoenixframework/liveview/domain/base/ComposableView.kt:140-145 | A new builder has no scrolling, an empty modifier and no phx-values. |
| ComposableView.ComposableBuilder.Size | liveview-android/src/main/java/org/phoenixframework/liveview/domain/base/ComposableView.kt:160-170 | Only the modifier changes, gaining the classified size element if there is one. |
| ComposableView.ComposableBuilder.Padding | liveview-android/src/main/java/org/phoenixframework/liveview/domain/base/ComposableView.kt:180-218 | Only the modifier changes, gaining a padding on the chosen edges for a non-empty digit string. |
| ComposableView.ComposableBuilder.Height | liveview-android/src/main/java/org/phoenixframework/liveview/domain/base/ComposableView.kt:234-251 | Only the modifier changes, gaining the classified height element if there is one. |
| ComposableView.ComposableBuilder.Width | liveview-android/src/main/java/org/phoenixframework/liveview/domain/base/ComposableView.kt:278-296 | Only the modifier changes, gaining the classified width element if there is one. |
| ComposableView.ComposableBuilder.Clip | liveview-android/src/main/java/org/phoenixframework/liveview/domain/base/ComposableView.kt:306-313 | One clip element carrying the shape string is appended. |
| ComposableView.ComposableBuilder.Clickable | liveview-android/src/main/java/org/phoenixframework/liveview/domain/base/ComposableView.kt:324-333 | One click element carrying the event name is appended. |
| ComposableView.ComposableBuilder.Value | liveview-android/src/main/java/org/phoenixframework/liveview/domain/base/ComposableView.kt:343-354 | The key the name binds is set to the value and every other entry is kept. A name that binds nothing changes nothing. |
| ComposableView.ComposableBuilder.Scrolling | liveview-android/src/main/java/org/phoenixframework/liveview/domain/base/ComposableView.kt:366-373 | Horizontal is set iff the string is horizontal or both, and vertical iff vertical or both. Both flags are overwritten; the modifier and values are kept. |
| ComposableView.ComposableBuilder.Background | liveview-android/src/main/java/org/phoenixframework/liveview/domain/base/ComposableView.kt:383-390 | Only the modifier changes, gaining a background for a non-empty string. |
| ComposableView.ComposableBuilder.AspectRatio | liveview-android/src/main/java/org/phoenixframework/liveview/domain/base/ComposableView.kt:401-408 | Only the modifier changes, gaining an aspect ratio for a non-empty string. |
| ComposableView.ComposableBuilder.TestTag | liveview-android/src/main/java/org/phoenixframework/liveview/domain/base/ComposableView.kt:417-422 | One test-tag element carrying the tag is appended. |
| ComposableView.ComposableBuilder.StyleModifier | liveview-android/src/main/java/org/phoenixframework/liveview/domain/base/ComposableView.kt:424-429 | One style element carrying the class string is appended. |
| ComposableView.ComposableBuilder.HandleCommonAttributes | liveview-android/src/main/java/org/phoenixframework/liveview/domain/base/ComposableView.kt:439-462 | A listed name runs its handler: `phx-value` binds `value`, and the others add their classified element. An unlisted `phx-value-<k>` binds `<k>`. Any other name changes nothing. The same builder is returned. |

## Left out

- Logging (`Log.*`), the socket `logger`, and the `onOpen`, `onClose` and first `onError` hooks: they only write diagnostics.
- The live-reload channel's join "ok" handler: it only logs.
- The real Phoenix socket and channel, OkHttp, heartbeats and reply matching: they are foreign code, stood in for by recorded objects.
- The payload mapper's `mapRawPayloadToDom`, `parseDiff` and `extractDiff` are foreign code. Their results are arguments of the callback methods, and each call is logged.
- Jsoup parsing is foreign code. A parsed document is modelled as the markup it was parsed from.
- `LiveViewState.baseSocketUrl` and `LiveViewState.baseUrl` are process-wide globals. They are parameters of the connect method.
- SocketManager.SocketManager.constructor: the random UUID comes from a random source and is a constructor parameter.
- Asynchronous callback timing and concurrency. Callbacks are called one at a time. A superseded channel's handlers may still fire, because the source has no guard against that.
- SocketManager.SocketManager.OnJoinReply: calling an unassigned `lateinit` listener throws. The model makes an assigned listener a precondition wherever the listener is invoked, instead of modelling the exception. OnMessage and OnTransportError do the same.
- ComposableView.DigitsValue: `toInt` overflow above 2^31-1 is not modelled, because digit strings are read as unbounded naturals.
- ComposableView.IsNotEmptyAndIsDigitsOnly: only ASCII digits are recognised. Other Unicode decimal digits that Kotlin's `isDigit` accepts are not modelled.
- ComposableView.HandleFraction: returns the integer percentage instead of the float `percentage / 100`.
- ComposableView.ComposableBuilder.AspectRatio: the `toFloat()` conversion and the exception it throws on a malformed string are not modelled. The element carries the string.
- ComposableView.ComposableBuilder.Clip: `shapeFromString` is not part of this model, so the element carries the raw argument. The same holds for `toColor` in Background, `fromStyleName` in StyleModifier, and the click handler in Clickable, which reads `phxValue` when clicked.
- ComposableView.ComposableBuilder.HandleCommonAttributes: the scope-specific branches (box alignment and match-parent size, column and row weight and alignment, dropdown menu anchor and size) are not modelled. They call helpers and Compose APIs outside this model.
- Attribute names, size keywords and scrolling keywords: the files defining `Attrs`, `SizeValues` and `ScrollingValues` are not part of this model. The constants take the values that the doc comments of the builder methods show, and `class` is taken to be "class".
- Compose rendering (`Compose`), `ComposableViewFactory` and the scroll modifier mapping are outside the modelled core.
