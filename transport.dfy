/**
 * The postMessage transport element, the bottom layer of an easyXDM stack.
 * One instance talks to one peer window over one channel. Its closure state
 * (`targetOrigin`, `callerWindow`, `frame`) and the "message" listeners it
 * has installed are fields of `PostMessageTransport`; everything it does to
 * the outside world (posts, frames created and removed, deferred callbacks,
 * calls into the element above it) is recorded in logs.
 */
module Transport {
  import opened Wrappers
  import opened Dom
  import opened Origin
  import opened Framing

  /** The configuration a stack hands to its transport. */
  datatype Config = Config(
    remote: string,                  // URL of the peer document
    channel: string,                 // name shared by both ends of one stack
    isHost: bool,                    // true on the side that creates the frame
    container: Option<ContainerId>)  // where the host places the frame

  /** The two "message" listeners the transport installs on its window. */
  datatype Handler = WaitForReady | OnMessage

  /** A `postMessage(message, targetOrigin)` call on window `target`. */
  datatype Post = Post(target: WinId, message: string, targetOrigin: string)

  /** A `createFrame(url, container, onLoad)` call. */
  datatype FrameRequest = FrameRequest(url: string, container: Option<ContainerId>)

  /** The `xdm_p` value that selects the postMessage transport. */
  const PostMessageProtocol: string := "1"

  /** The query parameters appended to the frame URL, in order. */
  function ChildQuery(channel: string, protocol: string, host: string): (query: seq<(string, string)>)
  {
    [("xdm_e", protocol + "//" + host), ("xdm_c", channel), ("xdm_p", PostMessageProtocol)]
  }

  /** The URL the host's frame is created at. */
  function ChildUrl(config: Config, win: Window, url: UrlLib): (frameUrl: string)
  {
    url.appendQueryParameters(config.remote, ChildQuery(config.channel, win.protocol, win.host))
  }

  /**
   * The decision of the permanent listener on one event: throw (no origin,
   * or no data on a message from the expected origin), drop, or pass
   * `(payload, origin)` upward. `targetOrigin` is `None` before `init`.
   */
  function Inbound(channel: string, targetOrigin: Option<string>, e: MessageEvent,
                   getLocation: string -> string, protocol: string): (decision: Result<Option<(string, string)>, Error>)
  {
    match GetOrigin(e, getLocation, protocol)
    case Failure(err) => Failure(err)
    case Success(origin) =>
      if targetOrigin != Some(origin) then Success(None)
      else if e.data.None? then Failure(TypeError)
      else if HasChannelPrefix(channel, e.data.value) then
        Success(Some((StripChannel(channel, e.data.value), origin)))
      else Success(None)
  }

  /**
   * An event is passed upward as `(payload, origin)` exactly when its
   * resolved origin is `targetOrigin` and its data is a frame on `channel`
   * whose payload is `payload`.
   */
  lemma InboundAcceptance(channel: string, targetOrigin: Option<string>, e: MessageEvent,
                          getLocation: string -> string, protocol: string, payload: string, origin: string)
    ensures Inbound(channel, targetOrigin, e, getLocation, protocol) == Success(Some((payload, origin)))
        <==> GetOrigin(e, getLocation, protocol) == Success(origin) && targetOrigin == Some(origin)
             && e.data.Some? && Unframe(channel, e.data.value) == Some(payload)
  {
    if e.data.Some? {
      SourceFilterIsUnframe(channel, e.data.value);
    }
  }

  /** Any event from another origin is dropped, whatever its data. */
  lemma InboundDropsForeignOrigin(channel: string, targetOrigin: Option<string>, e: MessageEvent,
                                  getLocation: string -> string, protocol: string, origin: string)
    requires GetOrigin(e, getLocation, protocol) == Success(origin)
    requires targetOrigin != Some(origin)
    ensures Inbound(channel, targetOrigin, e, getLocation, protocol) == Success(None)
  {
  }

  /** Data that is not a frame on `channel` is dropped, even from the expected origin. */
  lemma InboundDropsOtherData(channel: string, e: MessageEvent, getLocation: string -> string,
                              protocol: string, origin: string)
    requires GetOrigin(e, getLocation, protocol) == Success(origin)
    requires e.data.Some? && Unframe(channel, e.data.value).None?
    ensures Inbound(channel, Some(origin), e, getLocation, protocol) == Success(None)
  {
    SourceFilterIsUnframe(channel, e.data.value);
  }

  /**
   * The listener throws exactly when the origin cannot be resolved, or when
   * a message from the expected origin carries no data.
   */
  lemma InboundFailure(channel: string, targetOrigin: Option<string>, e: MessageEvent,
                       getLocation: string -> string, protocol: string)
    ensures var r := Inbound(channel, targetOrigin, e, getLocation, protocol);
            var o := GetOrigin(e, getLocation, protocol);
            (r.Failure? <==> o.Failure? || (targetOrigin == Some(o.value) && e.data.None?))
            && (r.Failure? && o.Failure? ==> r.error == OriginUnavailable)
            && (r.Failure? && o.Success? ==> r.error == TypeError)
  {
  }

  /**
   * Round trip over the wire: what `outgoing` posts for `payload`, received
   * from the expected origin, is passed upward as `payload` with that origin.
   */
  lemma DeliveryRoundTrip(channel: string, origin: string, payload: string, uri: Option<string>,
                          domain: Option<string>, getLocation: string -> string, protocol: string)
    requires origin != ""
    ensures Inbound(channel, Some(origin), MessageEvent(Some(origin), uri, domain, Some(Frame(channel, payload))),
                    getLocation, protocol) == Success(Some((payload, origin)))
  {
    UnframeFrame(channel, payload);
    SourceFilterIsUnframe(channel, Frame(channel, payload));
  }

  /** Frames from a stack on another channel are dropped by this one. */
  lemma InboundDropsOtherChannel(channel: string, sender: string, payload: string, origin: string,
                                 getLocation: string -> string, protocol: string)
    requires Delimiter !in channel && Delimiter !in sender && channel != sender
    requires origin != ""
    ensures Inbound(channel, Some(origin), MessageEvent(Some(origin), None, None, Some(Frame(sender, payload))),
                    getLocation, protocol) == Success(None)
  {
    ChannelsDoNotCross(sender, channel, payload);
    SourceFilterIsUnframe(channel, Frame(sender, payload));
  }

  class PostMessageTransport {
    const config: Config
    const win: Window
    const url: UrlLib

    // the source's closure variables
    var targetOrigin: Option<string>
    var callerWindow: Option<WinId>
    var frame: Option<FrameId>
    // the "message" listeners this instance has installed on its window
    var listeners: set<Handler>

    // what the instance has done to the world around it
    var posted: seq<Post>                  // postMessage calls, in order
    var framesCreated: seq<FrameRequest>   // createFrame calls; frame i has id i
    var framesRemoved: seq<FrameId>        // frames detached from the document
    var pendingCallbacks: nat              // setTimeout(..., 0) deferrals not yet run
    var incoming: seq<(string, string)>    // up.incoming(payload, origin) calls
    var callbacks: seq<bool>               // up.callback(success) calls

    /** The invariant every operation keeps. */
    ghost predicate Valid()
      reads this
    {
      && (targetOrigin.Some? ==> targetOrigin.value == url.getLocation(config.remote))
      && (callerWindow.Some? ==> targetOrigin.Some?)
      && (listeners != {} ==> targetOrigin.Some?)
      && (framesCreated != [] ==> targetOrigin.Some? && config.isHost)
      && (WaitForReady in listeners ==> config.isHost)
      && (frame.Some? ==> frame.value < |framesCreated|)
    }

    /** The state right after construction: nothing set, installed or recorded. */
    ghost predicate Pristine()
      reads this
    {
      && targetOrigin == None && callerWindow == None && frame == None && listeners == {}
      && posted == [] && framesCreated == [] && framesRemoved == []
      && pendingCallbacks == 0 && incoming == [] && callbacks == []
    }

    /** Allocation of the public object, once `window.postMessage` is known to exist. */
    constructor (config: Config, win: Window, url: UrlLib)
      requires win.hasPostMessage
      ensures Valid() && Pristine()
      ensures this.config == config && this.win == win && this.url == url
    {
      this.config, this.win, this.url := config, win, url;
      targetOrigin, callerWindow, frame, listeners := None, None, None, {};
      posted, framesCreated, framesRemoved := [], [], [];
      pendingCallbacks, incoming, callbacks := 0, [], [];
    }

    /** The transport's constructor: throws when the browser has no `postMessage`. */
    static method Create(config: Config, win: Window, url: UrlLib) returns (r: Result<PostMessageTransport, Error>)
      ensures r.Failure? <==> !win.hasPostMessage
      ensures r.Failure? ==> r.error == NoPostMessage
      ensures r.Success? ==> fresh(r.value) && r.value.Valid() && r.value.Pristine()
      ensures r.Success? ==> r.value.config == config && r.value.win == win && r.value.url == url
    {
      if !win.hasPostMessage {
        return Failure(NoPostMessage);
      }
      var t := new PostMessageTransport(config, win, url);
      r := Success(t);
    }

    /**
     * Starts the handshake. The host listens for the guest's announcement
     * and creates the frame; the guest listens for messages, announces itself
     * to its parent and defers its readiness callback.
     */
    method Init()
      requires Valid()
      modifies this`targetOrigin, this`listeners, this`frame, this`framesCreated,
               this`callerWindow, this`posted, this`pendingCallbacks
      ensures Valid()
      ensures targetOrigin == Some(url.getLocation(config.remote))
      ensures config.isHost ==>
        && listeners == old(listeners) + {WaitForReady}
        && framesCreated == old(framesCreated) + [FrameRequest(ChildUrl(config, win, url), config.container)]
        && frame == Some(|old(framesCreated)|)
        && callerWindow == old(callerWindow)
        && posted == old(posted)
        && pendingCallbacks == old(pendingCallbacks)
      ensures !config.isHost ==>
        && listeners == old(listeners) + {OnMessage}
        && callerWindow == Some(win.parent)
        && posted == old(posted) + [Post(win.parent, Sentinel(config.channel), url.getLocation(config.remote))]
        && pendingCallbacks == old(pendingCallbacks) + 1
        && frame == old(frame)
        && framesCreated == old(framesCreated)
    {
      targetOrigin := Some(url.getLocation(config.remote));
      if config.isHost {
        listeners := listeners + {WaitForReady};
        frame := Some(|framesCreated|);
        framesCreated := framesCreated + [FrameRequest(ChildUrl(config, win, url), config.container)];
      } else {
        listeners := listeners + {OnMessage};
        callerWindow := Some(win.parent);
        posted := posted + [Post(callerWindow.value, Sentinel(config.channel), targetOrigin.value)];
        pendingCallbacks := pendingCallbacks + 1;
      }
    }

    /** The load callback given to `createFrame`: the frame's window becomes the peer. */
    method FrameLoaded(f: FrameId, contentWindow: WinId)
      requires Valid()
      requires f < |framesCreated|
      modifies this`callerWindow
      ensures Valid()
      ensures callerWindow == Some(contentWindow)
    {
      callerWindow := Some(contentWindow);
    }

    /**
     * The host's transient listener. On the announcement it replaces itself
     * with the permanent listener, so the window never hands it another
     * event, and defers the readiness callback; anything else is ignored.
     */
    method HandleReady(e: MessageEvent)
      requires Valid()
      requires WaitForReady in listeners
      modifies this`listeners, this`pendingCallbacks
      ensures Valid()
      ensures e.data == Some(Sentinel(config.channel)) ==>
        && listeners == old(listeners) - {WaitForReady} + {OnMessage}
        && WaitForReady !in listeners
        && pendingCallbacks == old(pendingCallbacks) + 1
      ensures e.data != Some(Sentinel(config.channel)) ==>
        listeners == old(listeners) && pendingCallbacks == old(pendingCallbacks)
    {
      if e.data == Some(Sentinel(config.channel)) {
        listeners := listeners - {WaitForReady};
        listeners := listeners + {OnMessage};
        pendingCallbacks := pendingCallbacks + 1;
      }
    }

    /**
     * The permanent listener, which the window calls only while it is
     * installed: passes accepted messages upward and changes nothing else;
     * a failure is the exception the source lets escape.
     */
    method HandleMessage(e: MessageEvent) returns (r: Outcome<Error>)
      requires Valid()
      requires OnMessage in listeners
      modifies this`incoming
      ensures Valid()
      ensures var v := Inbound(config.channel, targetOrigin, e, url.getLocation, win.protocol);
        && (v.Failure? ==> r == Fail(v.error) && incoming == old(incoming))
        && (v.Success? && v.value.None? ==> r == Pass && incoming == old(incoming))
        && (v.Success? && v.value.Some? ==> r == Pass && incoming == old(incoming) + [v.value.value])
    {
      match Inbound(config.channel, targetOrigin, e, url.getLocation, win.protocol)
      case Failure(err) =>
        r := Fail(err);
      case Success(None) =>
        r := Pass;
      case Success(Some(delivery)) =>
        incoming := incoming + [delivery];
        r := Pass;
    }

    /**
     * Sends one framed message to the peer, at `domain` when given and
     * otherwise at `targetOrigin`. Before the peer window is known the call
     * on it throws.
     */
    method Outgoing(message: string, domain: Option<string>) returns (r: Outcome<Error>)
      requires Valid()
      modifies this`posted
      ensures Valid()
      ensures callerWindow.None? ==> r == Fail(TypeError) && posted == old(posted)
      ensures callerWindow.Some? ==>
        && r == Pass
        && posted == old(posted) + [Post(callerWindow.value, Frame(config.channel, message),
                                         if Truthy(domain) then domain.value else targetOrigin.value)]
    {
      if callerWindow.None? {
        return Fail(TypeError);
      }
      var to := if Truthy(domain) then domain.value else targetOrigin.value;
      posted := posted + [Post(callerWindow.value, Frame(config.channel, message), to)];
      r := Pass;
    }

    /**
     * Removes the permanent listener and, when this side owns a frame, drops
     * the peer handle and removes the frame. The transient listener is left
     * in place, and a guest keeps its peer handle.
     */
    method Destroy()
      requires Valid()
      modifies this`listeners, this`callerWindow, this`frame, this`framesRemoved
      ensures Valid()
      ensures listeners == old(listeners) - {OnMessage}
      ensures frame == None
      ensures old(frame).Some? ==> callerWindow == None && framesRemoved == old(framesRemoved) + [old(frame).value]
      ensures old(frame).None? ==> callerWindow == old(callerWindow) && framesRemoved == old(framesRemoved)
    {
      listeners := listeners - {OnMessage};
      if frame.Some? {
        callerWindow := None;
        framesRemoved := framesRemoved + [frame.value];
        frame := None;
      }
    }

    /** One deferred readiness callback runs: `up.callback(true)`. */
    method RunDeferred()
      requires Valid()
      requires pendingCallbacks > 0
      modifies this`pendingCallbacks, this`callbacks
      ensures Valid()
      ensures pendingCallbacks == old(pendingCallbacks) - 1
      ensures callbacks == old(callbacks) + [true]
    {
      pendingCallbacks := pendingCallbacks - 1;
      callbacks := callbacks + [true];
    }
  }
}
