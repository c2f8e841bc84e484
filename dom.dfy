/**
 * The browser-side values the transport works with: window and frame
 * handles, inbound message events, the exceptions it can raise, the
 * JavaScript truthiness and `String.prototype.substring` semantics it relies
 * on, and the environment (location, URL helpers) it reads.
 */
module Dom {
  import opened Wrappers

  /** Handle of a window that can be posted to. */
  type WinId = nat
  /** Handle of an iframe element created by the host. */
  type FrameId = nat
  /** Handle of a DOM element a frame may be placed in. */
  type ContainerId = nat

  /** An inbound "message" event; each field may be missing. */
  datatype MessageEvent = MessageEvent(
    origin: Option<string>,
    uri: Option<string>,
    domain: Option<string>,
    data: Option<string>)

  /** The exceptions the transport can throw. */
  datatype Error =
    | OriginUnavailable   // "Unable to retrieve the origin of the event"
    | NoPostMessage       // "This browser does not support window.postMessage"
    | TypeError           // a property read or call on `undefined` / `null`

  /** JavaScript truthiness of an optional string: present and non-empty. */
  predicate Truthy(s: Option<string>)
  {
    s.Some? && s.value != ""
  }

  /** Clamps a substring index into `[0, len]`, as ECMAScript does. */
  function Clamp(i: int, len: nat): (r: nat)
    ensures r <= len
    ensures 0 <= i <= len ==> r == i
  {
    if i < 0 then 0 else if i > len then len else i
  }

  /** `s.substring(start, end)`: both indices clamped, then swapped if out of order. */
  function Substring(s: string, start: int, end: int): (r: string)
    ensures |r| <= |s|
    ensures 0 <= start <= end <= |s| ==> r == s[start..end]
  {
    var a := Clamp(start, |s|);
    var b := Clamp(end, |s|);
    if a <= b then s[a..b] else s[b..a]
  }

  /** `s.substring(start)`: the suffix from the clamped index. */
  function SubstringFrom(s: string, start: int): (r: string)
    ensures 0 <= start <= |s| ==> r == s[start..]
    ensures start > |s| ==> r == ""
  {
    s[Clamp(start, |s|)..]
  }

  /**
   * Comparing the first `|p|` characters with `p`, the way the source tests
   * for a prefix, holds exactly when `p` is a prefix of `s`: a shorter `s`
   * comes back whole from `substring` and is too short to equal `p`.
   */
  lemma SubstringPrefixTest(s: string, p: string)
    ensures Substring(s, 0, |p|) == p <==> p <= s
  {
    if |p| <= |s| {
      assert Substring(s, 0, |p|) == s[..|p|];
    } else {
      assert Substring(s, 0, |p|) == s;
    }
  }

  /** The window the transport runs in: its location and its parent. */
  datatype Window = Window(
    protocol: string,      // location.protocol, e.g. "https:"
    host: string,          // location.host
    hasPostMessage: bool,  // whether window.postMessage exists
    parent: WinId)         // window.parent

  /**
   * The URL helpers the transport calls but whose code is not part of this
   * model: the origin (scheme, host and port) of a URL, and a URL with
   * query parameters appended in the given order.
   */
  datatype UrlLib = UrlLib(
    getLocation: string -> string,
    appendQueryParameters: (string, seq<(string, string)>) -> string)
}
