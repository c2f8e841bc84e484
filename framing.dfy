/**
 * Wire framing of the postMessage transport: every data message is the
 * channel name, one space and the payload; the readiness announcement is the
 * channel name followed by "-ready".
 */
module Framing {
  import opened Wrappers
  import opened Dom

  /** The framing delimiter. */
  const Delimiter: char := ' '

  /** The wire form of `payload` on `channel`. */
  function Frame(channel: string, payload: string): (wire: string)
  {
    channel + [Delimiter] + payload
  }

  /** The one-time readiness announcement of the guest on `channel`. */
  function Sentinel(channel: string): (announcement: string)
  {
    channel + "-ready"
  }

  /**
   * The source's inbound frame test: the first `|channel| + 1` characters
   * of `data`, taken with `substring`, equal `channel + " "`.
   */
  predicate HasChannelPrefix(channel: string, data: string)
  {
    Substring(data, 0, |channel| + 1) == channel + [Delimiter]
  }

  /** The payload carried by `data`, as the source strips it. */
  function StripChannel(channel: string, data: string): (payload: string)
  {
    SubstringFrom(data, |channel| + 1)
  }

  /**
   * Reference inverse of `Frame`: the payload of `data` when it is a frame
   * on `channel`, and `None` for anything else.
   */
  function Unframe(channel: string, data: string): (r: Option<string>)
    ensures r.Some? <==> channel + [Delimiter] <= data
    ensures r.Some? ==> data == Frame(channel, r.value)
  {
    if channel + [Delimiter] <= data then
      var payload := data[|channel| + 1..];
      assert data == data[..|channel| + 1] + payload;
      Some(payload)
    else None
  }

  /** The substring-based test and strip of the source compute `Unframe`. */
  lemma SourceFilterIsUnframe(channel: string, data: string)
    ensures HasChannelPrefix(channel, data) <==> Unframe(channel, data).Some?
    ensures HasChannelPrefix(channel, data) ==> Unframe(channel, data) == Some(StripChannel(channel, data))
  {
    SubstringPrefixTest(data, channel + [Delimiter]);
  }

  /** Round trip: unframing a frame gives back the payload exactly. */
  lemma UnframeFrame(channel: string, payload: string)
    ensures Unframe(channel, Frame(channel, payload)) == Some(payload)
  {
    var f := Frame(channel, payload);
    assert f[..|channel| + 1] == channel + [Delimiter];
    assert f[|channel| + 1..] == payload;
  }

  /** Framing on one channel is injective: distinct payloads give distinct wire strings. */
  lemma FrameInjective(channel: string, p1: string, p2: string)
    requires Frame(channel, p1) == Frame(channel, p2)
    ensures p1 == p2
  {
    UnframeFrame(channel, p1);
    UnframeFrame(channel, p2);
  }

  /**
   * Multiplexing: when neither channel name contains the delimiter, a frame
   * sent on one channel is never accepted on a different one.
   */
  lemma ChannelsDoNotCross(sent: string, other: string, payload: string)
    requires Delimiter !in sent && Delimiter !in other
    requires sent != other
    ensures Unframe(other, Frame(sent, payload)) == None
  {
    var f := Frame(sent, payload);
    var prefix := other + [Delimiter];
    if |other| < |sent| {
      // the delimiter of `other` meets a character of `sent`
      assert prefix[|other|] == Delimiter != sent[|other|] == f[|other|];
    } else if |other| > |sent| {
      // the delimiter of `sent` meets a character of `other`
      assert prefix[|sent|] == other[|sent|] != Delimiter == f[|sent|];
    } else {
      assert prefix[..|other|] == other != sent == f[..|sent|];
    }
  }

  /** The readiness announcement is never accepted as a data frame on its own channel. */
  lemma SentinelIsNotAFrame(channel: string)
    ensures Unframe(channel, Sentinel(channel)) == None
  {
    var s := Sentinel(channel);
    assert s[|channel|] == '-' != Delimiter == (channel + [Delimiter])[|channel|];
  }

  /**
   * When the channel name has no delimiter, no data frame on any channel
   * equals its readiness announcement, so the host's announcement filter
   * cannot be triggered by a data message.
   */
  lemma NoFrameIsASentinel(channel: string, sender: string, payload: string)
    requires Delimiter !in channel
    ensures Frame(sender, payload) != Sentinel(channel)
  {
    var f := Frame(sender, payload);
    var s := Sentinel(channel);
    assert f[|sender|] == Delimiter;
    assert Delimiter !in s by {
      assert s == channel + "-ready";
    }
  }
}
