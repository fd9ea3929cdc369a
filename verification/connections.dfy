/** main.py's `ConnectionManager`: the list of open websockets, and the
    sending of one message to one of them. A websocket is an object; what it
    has been sent is its outbox, a sequence of the messages main.py
    serialises to JSON. */
module Connections {
  import opened Dedup

  /** The JSON objects main.py sends: `{"status": ...}`, `{"message": ...}`
      and the final `{"status": ..., "playlist_url": ...}`. */
  datatype Message =
    | Status(status: string)
    | Note(message: string)
    | Ready(status: string, playlistUrl: string)

  class WebSocket {
    /** Whether `accept()` has been awaited. */
    var accepted: bool
    /** Everything sent over the socket so far, oldest first. */
    var sent: seq<Message>

    constructor ()
      ensures !accepted && sent == []
    {
      accepted := false;
      sent := [];
    }

    /** `await websocket.accept()` */
    method Accept()
      modifies this
      ensures accepted && sent == old(sent)
    {
      accepted := true;
    }

    /** `await websocket.send_text(json.dumps(message))` */
    method SendText(message: Message)
      modifies this
      ensures sent == old(sent) + [message] && accepted == old(accepted)
    {
      sent := sent + [message];
    }
  }

  /** `list.remove(x)`: drops the first occurrence of `x` and keeps the
      order of everything else. */
  function RemoveFirst<T(==)>(s: seq<T>, x: T): (r: seq<T>)
    requires x in s
    ensures |r| == |s| - 1
    ensures multiset(r) == multiset(s) - multiset{x}
    ensures x in s[FirstIndex(s, x) + 1..] <==> x in r
  {
    var k := FirstIndex(s, x);
    assert s == s[..k] + [x] + s[k + 1..];
    s[..k] + s[k + 1..]
  }

  /** Written around the first occurrence of `x`, `remove` cuts out exactly
      that occurrence: everything before it and after it stays in order. */
  lemma RemoveFirstSplits<T>(a: seq<T>, x: T, b: seq<T>)
    requires x !in a
    ensures RemoveFirst(a + [x] + b, x) == a + b
  {
    var s := a + [x] + b;
    assert forall i :: 0 <= i < |a| ==> s[i] == a[i];
    assert s[|a|] == x;
    assert FirstIndex(s, x) == |a|;
    assert s[..|a|] == a && s[|a| + 1..] == b;
  }

  /** Connecting a socket that was not yet listed and then disconnecting it
      leaves the list as it was. */
  lemma ConnectThenDisconnect<T>(s: seq<T>, x: T)
    requires x !in s
    ensures RemoveFirst(s + [x], x) == s
  {
    RemoveFirstSplits(s, x, []);
    assert s + [x] + [] == s + [x] && s + [] == s;
  }

  /** Removing a socket that was listed before another connected does not
      touch the newcomer, which stays last. */
  lemma DisconnectEarlier<T>(s: seq<T>, x: T, y: T)
    requires x in s
    ensures RemoveFirst(s + [y], x) == RemoveFirst(s, x) + [y]
  {
    var t := s + [y];
    var k := FirstIndex(s, x);
    assert FirstIndex(t, x) == k by {
      assert t[..|s|] == s;
      FirstIndexOfPrefix(t, |s|, x);
    }
    assert t[..k] == s[..k] && t[k + 1..] == s[k + 1..] + [y];
  }

  class ConnectionManager {
    /** `active_connections` */
    var active: seq<WebSocket>

    constructor ()
      ensures active == []
    {
      active := [];
    }

    /** `connect`: accepts the socket, then appends it. */
    method Connect(ws: WebSocket)
      modifies this, ws
      ensures ws.accepted && ws.sent == old(ws.sent)
      ensures active == old(active) + [ws]
    {
      ws.Accept();
      active := active + [ws];
    }

    /** `disconnect`: removes the first occurrence of the socket. When it is
        not listed, `list.remove` raises `ValueError`; here `removed` is false
        and nothing changes. */
    method Disconnect(ws: WebSocket) returns (removed: bool)
      modifies this
      ensures removed <==> ws in old(active)
      ensures removed ==> active == RemoveFirst(old(active), ws)
      ensures !removed ==> active == old(active)
    {
      removed := ws in active;
      if removed {
        active := RemoveFirst(active, ws);
      }
    }

    /** `send_personal_message` */
    method SendPersonalMessage(message: Message, ws: WebSocket)
      modifies ws
      ensures ws.sent == old(ws.sent) + [message] && ws.accepted == old(ws.accepted)
    {
      ws.SendText(message);
    }
  }
}
