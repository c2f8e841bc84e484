# easyXDM postMessage transport, modelled in Dafny

easyXDM lets a host page and a frame it embeds from another origin exchange
text messages. A stack of elements carries each message; its bottom element,
the postMessage transport (`src/stack/PostMessageTransport.js`), does three
things, and this project models all three:

- **Origin resolution** (`Origin.GetOrigin`). An inbound event's origin is
  taken from the HTML5 `origin` field. Failing that, it is the origin of the
  legacy `uri` field. Failing that, it is the legacy `domain` field under the
  local page's scheme. With none of them, the resolver throws. A field counts
  as present when it is JavaScript-truthy: present and non-empty. The third
  tier is an inherited weakness: it is wrong whenever the peer uses a
  different scheme. The model keeps it as it is.
- **Wire framing** (module `Framing`). A data message is `channel + " " +
  payload`. The guest's readiness announcement is `channel + "-ready"`. The
  permanent listener (`Transport.Inbound`, run by `HandleMessage`) passes a
  message upward only when its origin is `targetOrigin` and its data starts
  with `channel + " "`. It then strips that prefix. The source tests the
  prefix with `substring`, and the model follows ECMAScript's clamping and
  swapping of `substring` indexes (`Dom.Substring`). `Framing.Unframe` is an independent reference
  inverse of `Frame`. The lemmas show the source's test computes exactly it.
- **Handshake and teardown** (class `Transport.PostMessageTransport`). Its
  fields are the closure variables `targetOrigin`, `callerWindow` and
  `frame`, plus the set of "message" listeners it has installed
  (`WaitForReady` or `OnMessage`). Its effects on the outside world are
  logs:
  - `posted`: every `postMessage` call;
  - `framesCreated` and `framesRemoved`: every frame created and detached;
  - `pendingCallbacks`: every `setTimeout(..., 0)` deferral not yet run;
  - `incoming` and `callbacks`: every call into the element above.

  Each listener is a method the window calls with an event: `HandleReady`
  for `waitForReady`, `HandleMessage` for `_window_onMessage`. The load
  callback of a created frame is `FrameLoaded`. A deferred callback running
  is `RunDeferred`. `Valid()` is the invariant every method keeps. For
  example, a known peer window implies that `targetOrigin` is set.
  `Scenario` drives a host and a guest through the handshake using only
  these contracts.

The URL helpers `easyXDM.Url.getLocation` and `appendQueryParameters` are
not part of this model. They are arrow-typed fields of `Dom.UrlLib` and
stay uninterpreted. The page's `location` and `window.parent`, and whether
`window.postMessage` exists, come in as a `Dom.Window` record.

## Teardown and handshake as the code has them

- `destroy()` (src/stack/PostMessageTransport.js:74) removes only
  `_window_onMessage`. A host destroyed during the handshake keeps
  `waitForReady` installed, so a late announcement installs the permanent
  listener again and schedules `up.callback(true)`.
  `Scenario.DestroyDuringHandshake` shows this.
- `destroy()` clears `callerWindow` only when a frame exists (lines 75-79),
  so a guest keeps its parent handle.
- After a host's `destroy()`, `callerWindow` is null (line 76), so a later
  `outgoing` throws TypeError at line 68 and posts nothing.
  `Scenario.HostTeardown` shows this.
- `waitForReady` (line 86) compares only the data with the announcement. It
  accepts the announcement from any origin.

## Model

| member | source | states |
|---|---|---|
| `Origin.GetOrigin` | src/stack/PostMessageTransport.js:26-41 | throws exactly when none of origin, uri, domain is truthy; otherwise returns the strongest present one (origin as is, getLocation of uri, local protocol + "//" + domain) |
| `Origin.StrongestFieldDecides` | src/stack/PostMessageTransport.js:26-41 | two events that agree on their strongest truthy field among origin, uri and domain, and on every field above it, resolve to the same result |
| `Dom.Substring` | src/stack/PostMessageTransport.js:54-55 | `s.substring(start, end)` is no longer than `s`, and is the slice `s[start..end]` whenever the indexes are in order and in range |
| `Dom.SubstringPrefixTest` | src/stack/PostMessageTransport.js:54 | comparing `data.substring(0, p.length)` with `p` is true exactly when `p` is a prefix of `data`, including when data is shorter |
| `Framing.Unframe` | src/stack/PostMessageTransport.js:54-55 | yields a payload exactly for data that starts with `channel + " "`, and that data is the frame of the payload |
| `Framing.SourceFilterIsUnframe` | src/stack/PostMessageTransport.js:54-55 | the source's substring test and strip accept the same data as `Unframe` and yield the same payload |
| `Framing.UnframeFrame` | src/stack/PostMessageTransport.js:54-68 | unframing the string `outgoing` builds gives back the payload exactly |
| `Framing.FrameInjective` | src/stack/PostMessageTransport.js:68 | two payloads framed on one channel give equal wire strings only when the payloads are equal |
| `Framing.ChannelsDoNotCross` | src/stack/PostMessageTransport.js:54 | with space-free channel names, a frame sent on one channel is never accepted on another |
| `Framing.SentinelIsNotAFrame` | src/stack/PostMessageTransport.js:54 | the announcement `channel + "-ready"` is never accepted as a data frame on its channel |
| `Framing.NoFrameIsASentinel` | src/stack/PostMessageTransport.js:86 | with a space-free channel name, no data frame equals the announcement the host waits for |
| `Transport.InboundAcceptance` | src/stack/PostMessageTransport.js:49-57 | an event is passed up as (payload, origin) iff its origin resolves to origin, origin equals targetOrigin, and its data unframes to payload |
| `Transport.InboundDropsForeignOrigin` | src/stack/PostMessageTransport.js:54 | an event whose origin differs from targetOrigin is dropped, whatever its data |
| `Transport.InboundDropsOtherData` | src/stack/PostMessageTransport.js:54 | data that is not a frame on the channel is dropped even from the expected origin |
| `Transport.InboundFailure` | src/stack/PostMessageTransport.js:40-55 | the listener throws exactly when no origin can be resolved (OriginUnavailable) or a message from the expected origin has no data (TypeError) |
| `Transport.DeliveryRoundTrip` | src/stack/PostMessageTransport.js:54-68 | the frame `outgoing` posts, received from the expected origin, is passed up as the original payload with that origin |
| `Transport.InboundDropsOtherChannel` | src/stack/PostMessageTransport.js:54-55 | a frame from a stack on a different space-free channel is dropped |
| `Transport.PostMessageTransport.constructor` | src/stack/PostMessageTransport.js:15-19 | a new transport has no targetOrigin, peer, frame or listener and has recorded nothing |
| `Transport.PostMessageTransport.Create` | src/stack/PostMessageTransport.js:62-66 | fails with NoPostMessage iff window.postMessage is absent; otherwise returns a fresh, pristine transport for the given configuration |
| `Transport.PostMessageTransport.Init` | src/stack/PostMessageTransport.js:81-116 | sets targetOrigin to getLocation(remote); host: adds only WaitForReady and creates one frame at remote with xdm_e, xdm_c, xdm_p=1, leaving the peer, posts and callbacks alone; guest: adds OnMessage, takes the parent as peer, posts exactly the announcement to targetOrigin and defers one callback |
| `Transport.PostMessageTransport.FrameLoaded` | src/stack/PostMessageTransport.js:103-105 | the frame's load callback makes its content window the peer |
| `Transport.PostMessageTransport.HandleReady` | src/stack/PostMessageTransport.js:85-97 | on the announcement, replaces WaitForReady by OnMessage (so it cannot fire again) and defers one callback; on any other data changes nothing |
| `Transport.PostMessageTransport.HandleMessage` | src/stack/PostMessageTransport.js:49-57 | appends to incoming exactly what `Inbound` accepts, throws what it throws, and changes nothing else |
| `Transport.PostMessageTransport.Outgoing` | src/stack/PostMessageTransport.js:67-69 | posts exactly one `channel + " " + message` to the peer, at domain when truthy and otherwise at targetOrigin; throws TypeError, posting nothing, while no peer is known |
| `Transport.PostMessageTransport.Destroy` | src/stack/PostMessageTransport.js:70-80 | removes OnMessage and nothing else from the listeners; with a frame, drops the peer and removes that frame once; without one, changes neither the peer nor the removed frames, so a second call removes no frame |
| `Transport.PostMessageTransport.RunDeferred` | src/stack/PostMessageTransport.js:93-95 | a deferred callback runs as exactly one `up.callback(true)` |

## Left out

- `src/DomHelper.js` is not part of this model. `on` and `un` appear only
  as adding to and removing from the `listeners` set. `createFrame` appears
  only as a new frame id, logged with its URL and container, plus a later
  `FrameLoaded`. `requiresJSON` is not used by the transport.
- URL parsing and query composition are uninterpreted functions.
- Real cross-window delivery and the browser's event dispatch are not
  modelled. A posted message is a log entry. A listener runs when a caller
  invokes its method with an event. `HandleReady` and `HandleMessage`
  require their listener to be installed, because the window only calls
  installed listeners.
- Scheduling is not modelled: `setTimeout(..., 0)` is a counter of pending
  callbacks, and `RunDeferred` runs one of them.
- Debug tracing is not modelled.
- The stack above the transport, and `pub.up` itself, are not modelled. The
  element above is a recorder of `incoming` and `callback` calls. A missing
  `up` and the exceptions it would raise are also left out.
- `Transport.PostMessageTransport.Init`: each host `init` installs a new
  `waitForReady` closure. The model has one `WaitForReady` value, so
  repeated host `init` calls share one listener entry.
- `event.data` is an optional string. Non-string data and the coercions of
  JavaScript's `==` are not modelled.
- Strings are sequences of Unicode scalar values, not UTF-16 code units.
  `|channel|` differs from JavaScript's `channel.length` when the channel
  holds characters outside the Basic Multilingual Plane, and event data
  with unpaired surrogates cannot be represented. The accept-and-strip
  decision agrees on well-formed strings.
- Frame removal assumes the frame still has a parent node, as `createFrame`
  guarantees.
