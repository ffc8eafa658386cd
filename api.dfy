/** The room socket `GameWebSocket` and the error-message helper
    `apiUtils.handleError` of src/lib/api.ts. The HTTP wrappers around
    `fetch` are not part of this model. */
module Api {

  import opened Common
  import Reconnect

  /** `API_BASE_URL`: "https://backendairsoftar-production.up.railway.app". */
  const ApiBaseUrl: string := "https" + ApiHost
  const ApiHost: string := "://backendairsoftar-production.up.railway.app"

  const UnknownErrorMessage: string := "Terjadi kesalahan yang tidak diketahui"

  // ---------------------------------------------------------------------
  // handleError

  datatype ResponseData = ResponseData(message: Option<string>)
  datatype Response = Response(data: Option<ResponseData>)

  /** A caught value, as far as `handleError` inspects it: not an object at
      all, or an object with (maybe) a `response` carrying
      `data.message`, which is an `Error` with a `message` when
      `errorMessage` is present. */
  datatype Thrown =
    | NotAnObject
    | Obj(response: Option<Response>, errorMessage: Option<string>)

  /** `error.response?.data?.message`, when it is a non-empty string. */
  function ResponseMessage(e: Thrown): Option<string> {
    if e.Obj? && e.response.Some? && e.response.value.data.Some?
       && e.response.value.data.value.message.Some?
       && e.response.value.data.value.message.value != ""
    then e.response.value.data.value.message
    else None
  }

  function HandleError(e: Thrown): (r: string)
    ensures ResponseMessage(e).Some? ==> r == ResponseMessage(e).value
    ensures ResponseMessage(e).None? && e.Obj? && e.errorMessage.Some? ==> r == e.errorMessage.value
    ensures ResponseMessage(e).None? && (e.NotAnObject? || e.errorMessage.None?) ==> r == UnknownErrorMessage
  {
    match ResponseMessage(e)
    case Some(m) => m
    case None =>
      if e.Obj? && e.errorMessage.Some? then e.errorMessage.value else UnknownErrorMessage
  }

  /** The text shown to the user is empty only for an `Error` whose own
      message is empty and that carries no server message; the server's
      message wins over the exception's. */
  lemma HandleErrorShowsSomething(e: Thrown)
    ensures HandleError(e) == "" <==>
      ResponseMessage(e).None? && e.Obj? && e.errorMessage == Some("")
    ensures ResponseMessage(e).Some? ==> HandleError(e) != ""
  {
  }

  // ---------------------------------------------------------------------
  // Socket URL

  predicate OccursAt(s: string, pat: string, i: nat) {
    i + |pat| <= |s| && s[i..i + |pat|] == pat
  }

  /** `s.replace(pat, rep)` with a string pattern: only the first
      occurrence is replaced. */
  function ReplaceFirst(s: string, pat: string, rep: string): (r: string)
    decreases |s|
  {
    if OccursAt(s, pat, 0) then rep + s[|pat|..]
    else if s == [] then s
    else [s[0]] + ReplaceFirst(s[1..], pat, rep)
  }

  /** `ReplaceFirst` rewrites the first occurrence and nothing else, and
      leaves a string without one unchanged. */
  lemma {:induction false} ReplaceFirstSpec(s: string, pat: string, rep: string, i: nat)
    requires OccursAt(s, pat, i) && forall j :: 0 <= j < i ==> !OccursAt(s, pat, j)
    ensures ReplaceFirst(s, pat, rep) == s[..i] + rep + s[i + |pat|..]
    decreases i
  {
    if i > 0 {
      var t := s[1..];
      assert !OccursAt(s, pat, 0);
      assert ReplaceFirst(s, pat, rep) == [s[0]] + ReplaceFirst(t, pat, rep);
      forall j | 0 <= j < i - 1 ensures !OccursAt(t, pat, j) {
        assert !OccursAt(s, pat, j + 1);
        assert t[j..j + |pat|] == s[j + 1..j + 1 + |pat|];
      }
      assert t[i - 1..i - 1 + |pat|] == s[i..i + |pat|];
      ReplaceFirstSpec(t, pat, rep, i - 1);
      assert t[i - 1 + |pat|..] == s[i + |pat|..];
      assert s[..i] == [s[0]] + t[..i - 1];
    }
  }

  lemma {:induction false} ReplaceFirstAbsent(s: string, pat: string, rep: string)
    requires forall j :: 0 <= j <= |s| ==> !OccursAt(s, pat, j)
    ensures ReplaceFirst(s, pat, rep) == s
    decreases |s|
  {
    if s != [] {
      forall j | 0 <= j <= |s[1..]| ensures !OccursAt(s[1..], pat, j) {
        assert !OccursAt(s, pat, j + 1);
        if j + |pat| <= |s[1..]| {
          assert s[1..][j..j + |pat|] == s[j + 1..j + 1 + |pat|];
        }
      }
      ReplaceFirstAbsent(s[1..], pat, rep);
    }
  }

  /** The URL `connect()` opens for a room and a token. */
  function RoomSocketUrl(roomId: string, token: string): string {
    ReplaceFirst(ApiBaseUrl, "https", "wss") + "/game/" + roomId + "?token=" + token
  }

  lemma RoomSocketUrlIsSecure(roomId: string, token: string)
    ensures RoomSocketUrl(roomId, token)
      == "wss" + ApiHost + "/game/" + roomId + "?token=" + token
  {
    assert ApiBaseUrl[..5] == "https";
    assert OccursAt(ApiBaseUrl, "https", 0);
    assert ApiBaseUrl[5..] == ApiHost;
  }

  // ---------------------------------------------------------------------
  // GameWebSocket

  /** What the client does to the room socket, in order. */
  datatype Action<Data> = Write(data: Data) | CloseCall

  class GameWebSocket<Data> {
    const roomId: string
    var ws: Ws
    var reconnectAttempts: nat
    var url: string
    var wire: seq<Action<Data>>
    var delivered: seq<Data>

    ghost predicate Valid()
      reads this
    {
      reconnectAttempts <= Reconnect.MaxReconnectAttempts
    }

    constructor (roomId: string)
      ensures Valid()
      ensures this.roomId == roomId && ws == NoSocket && reconnectAttempts == 0
      ensures url == "" && wire == [] && delivered == []
    {
      this.roomId := roomId;
      ws := NoSocket;
      reconnectAttempts := 0;
      url := "";
      wire := [];
      delivered := [];
    }

    /** `connect()` with the stored auth token: with no token (null or the
        empty string) it returns without creating a socket. */
    method Connect(token: Option<string>)
      requires Valid()
      modifies this`ws, this`url
      ensures Valid()
      ensures token.None? || token.value == "" ==> ws == old(ws) && url == old(url)
      ensures token.Some? && token.value != "" ==> ws == Connecting && url == RoomSocketUrl(roomId, token.value)
    {
      if token.None? || token.value == "" {
        return;
      }
      ws := Connecting;
      url := RoomSocketUrl(roomId, token.value);
    }

    /** The `open` event resets the attempt counter. */
    method OnOpen()
      requires Valid() && ws == Connecting
      modifies this`ws, this`reconnectAttempts
      ensures Valid() && ws == Open && reconnectAttempts == 0
    {
      ws := Open;
      reconnectAttempts := 0;
    }

    /** The `message` event: a frame that parses (`Some`) reaches the
        callback; a malformed one (`None`) is only logged. */
    method OnMessage(frame: Option<Data>)
      requires Valid()
      modifies this`delivered
      ensures Valid()
      ensures delivered == if frame.Some? then old(delivered) + [frame.value] else old(delivered)
    {
      if frame.Some? {
        delivered := delivered + [frame.value];
      }
    }

    /** The `close` event runs `attemptReconnect`, which returns the delay of
        the `connect()` it schedules, if any. */
    method OnClose() returns (delay: Option<nat>)
      requires Valid()
      modifies this`ws, this`reconnectAttempts
      ensures Valid()
      ensures ws == if old(ws) == NoSocket then NoSocket else Closed
      ensures Reconnect.Decision(reconnectAttempts, delay) == Reconnect.AttemptReconnect(old(reconnectAttempts))
    {
      if ws != NoSocket {
        ws := Closed;
      }
      var d := Reconnect.AttemptReconnect(reconnectAttempts);
      reconnectAttempts := d.attempts;
      delay := d.delay;
    }

    /** `send`: writes only while the socket is OPEN, silently drops otherwise. */
    method Send(data: Data) returns (written: bool)
      requires Valid()
      modifies this`wire
      ensures Valid()
      ensures written <==> ws == Open
      ensures wire == if written then old(wire) + [Write(data)] else old(wire)
    {
      written := ws == Open;
      if written {
        wire := wire + [Write(data)];
      }
    }

    /** `disconnect`: closes and clears the socket; a no-op without one. */
    method Disconnect()
      requires Valid()
      modifies this`ws, this`wire
      ensures Valid() && ws == NoSocket
      ensures wire == if old(ws) == NoSocket then old(wire) else old(wire) + [CloseCall]
    {
      if ws != NoSocket {
        wire := wire + [CloseCall];
        ws := NoSocket;
      }
    }
  }

  /** Without a token nothing is opened, so nothing can be sent; a second
      `disconnect()` adds nothing to the wire. */
  method NoTokenScenario(roomId: string) returns (written: bool, wire: seq<Action<int>>)
    ensures !written && wire == []
  {
    var c := new GameWebSocket<int>(roomId);
    c.Connect(None);
    written := c.Send(42);
    c.Disconnect();
    c.Disconnect();
    wire := c.wire;
  }
}
