/**
 * Clients of the transport: a host page and the guest frame it creates,
 * driven through the handshake, one message each way, and teardown, using
 * only the contracts of `PostMessageTransport`.
 */
module Scenario {
  import opened Wrappers
  import opened Dom
  import opened Framing
  import opened Transport

  const HostPage := "https://a.example/index.html"
  const HostOrigin := "https://a.example"
  const GuestPage := "https://b.example/page"
  const GuestOrigin := "https://b.example"
  const HostWin: WinId := 1
  const GuestWin: WinId := 2

  /** A URL-to-origin map that knows the two pages. */
  function Locate(u: string): (origin: string)
  {
    if u == GuestPage then GuestOrigin else HostOrigin
  }

  /** The event the browser hands a listener for a posted message from `origin`. */
  function Delivered(origin: string, data: string): (e: MessageEvent)
  {
    MessageEvent(Some(origin), None, None, Some(data))
  }

  /** The host end of a stack on channel "xdm1": the host page embeds the guest page. */
  method NewHost() returns (host: PostMessageTransport)
    ensures fresh(host) && host.Valid() && host.Pristine()
    ensures host.config == Config(GuestPage, "xdm1", true, None)
    ensures host.win.protocol == "https:" && host.url.getLocation == Locate
  {
    var r := PostMessageTransport.Create(Config(GuestPage, "xdm1", true, None),
                                         Window("https:", "a.example", true, HostWin), UrlLib(Locate, (u, q) => u));
    host := r.value;
  }

  /** The guest end of the same stack, running in the frame whose parent is the host window. */
  method NewGuest() returns (guest: PostMessageTransport)
    ensures fresh(guest) && guest.Valid() && guest.Pristine()
    ensures guest.config == Config(HostPage, "xdm1", false, None)
    ensures guest.win.protocol == "https:" && guest.win.parent == HostWin && guest.url.getLocation == Locate
  {
    var r := PostMessageTransport.Create(Config(HostPage, "xdm1", false, None),
                                         Window("https:", "b.example", true, HostWin), UrlLib(Locate, (u, q) => u));
    guest := r.value;
  }

  /** The guest listens, announces itself to its parent and receives the host's first message. */
  method GuestSide()
  {
    var guest := NewGuest();
    guest.Init();
    assert guest.listeners == {OnMessage};
    assert Sentinel("xdm1") == "xdm1-ready";
    assert guest.posted == [Post(HostWin, "xdm1-ready", HostOrigin)];

    assert Frame("xdm1", "hello") == "xdm1 hello";
    var r := guest.HandleMessage(Delivered(HostOrigin, "xdm1 hello"));
    assert guest.incoming == [("hello", HostOrigin)] by {
      DeliveryRoundTrip("xdm1", HostOrigin, "hello", None, None, Locate, "https:");
    }
    // the same frame from any other origin is dropped
    r := guest.HandleMessage(Delivered(GuestOrigin, "xdm1 hello"));
    assert guest.incoming == [("hello", HostOrigin)];

    guest.RunDeferred();
    assert guest.callbacks == [true];
    guest.Destroy();
    assert guest.listeners == {} && guest.callerWindow == Some(HostWin);
  }

  /** The host waits for the announcement; a second one reaches only the permanent listener, which drops it. */
  method HostHandshake()
  {
    var host := NewHost();
    host.Init();
    assert host.listeners == {WaitForReady} && host.targetOrigin == Some(GuestOrigin);
    assert host.callerWindow == None && host.frame == Some(0);

    assert Sentinel("xdm1") == "xdm1-ready";
    host.HandleReady(Delivered(GuestOrigin, "xdm1-ready"));
    assert host.listeners == {OnMessage} && host.pendingCallbacks == 1;

    SentinelIsNotAFrame("xdm1");
    var r := host.HandleMessage(Delivered(GuestOrigin, "xdm1-ready"));
    assert host.incoming == [];

    host.RunDeferred();
    assert host.callbacks == [true] && host.pendingCallbacks == 0;
  }

  /** Once the frame has loaded, the host frames and posts a message to it. */
  method HostSends()
  {
    var host := NewHost();
    host.Init();
    host.FrameLoaded(0, GuestWin);
    assert Frame("xdm1", "hello") == "xdm1 hello";
    var r := host.Outgoing("hello", None);
    assert host.posted == [Post(GuestWin, "xdm1 hello", GuestOrigin)];
  }

  /** Teardown of a ready host removes its frame once, however often it is called. */
  method HostTeardown()
  {
    var host := NewHost();
    host.Init();
    assert Sentinel("xdm1") == "xdm1-ready";
    host.HandleReady(Delivered(GuestOrigin, "xdm1-ready"));
    host.FrameLoaded(0, GuestWin);
    host.Destroy();
    assert host.listeners == {} && host.callerWindow == None && host.framesRemoved == [0];
    host.Destroy();
    assert host.framesRemoved == [0];
    // the peer handle is gone, so sending now throws and posts nothing
    var r := host.Outgoing("late", None);
    assert r == Fail(TypeError) && host.posted == [];
  }

  /** Teardown on the host before the guest has announced itself. */
  method DestroyDuringHandshake()
  {
    var host := NewHost();
    host.Destroy();
    assert host.Pristine();
    host.Init();
    host.Destroy();
    // the transient listener survives teardown ...
    assert host.listeners == {WaitForReady};
    // ... so a late announcement still installs the permanent listener and schedules the callback
    assert Sentinel("xdm1") == "xdm1-ready";
    host.HandleReady(Delivered(GuestOrigin, "xdm1-ready"));
    assert host.listeners == {OnMessage} && host.pendingCallbacks == 1;
  }
}
