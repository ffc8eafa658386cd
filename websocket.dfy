/** The multiplayer session client (`MultiplayerWebSocket`) and the in-memory
    demo server (`DemoMultiplayer`) of src/lib/websocket.ts.

    The browser socket is abstracted to its ready state; what the client
    writes on it (frames and the `close()` call) is recorded in order in
    `wire`, and what it hands to the `onMessage` callback in `delivered`.
    Timers are not run: a method that would call `setTimeout` returns the
    delay it would schedule. Clock readings are parameters. */
module Sockets {

  import opened Common
  import Reconnect

  /** The event-specific `data` of a message, one shape per message type. */
  datatype Body =
    | PlayerJoin
    | PlayerLeave
    | PositionUpdate(position: Vec2, gps: Gps)
    | Shoot(targetId: string, crosshair: Vec2)
    | Hit(targetId: string, damage: int)
    | Elimination(targetId: string)
    | GameStateUpdate

  datatype GameMessage = GameMessage(playerId: string, body: Body, timestamp: int)

  /** An inbound text frame as `JSON.parse` sees it. */
  datatype Frame = Malformed | Parsed(message: GameMessage)

  /** What the client does to the socket, in order. */
  datatype WireAction = Send(message: GameMessage) | CloseCall

  function SocketUrl(serverUrl: string, playerId: string): string {
    serverUrl + "/game?playerId=" + playerId
  }

  class MultiplayerWebSocket {
    const serverUrl: string
    const playerId: string
    var ws: Ws
    var reconnectAttempts: nat
    /** URL of the most recently created socket. */
    var url: string
    var wire: seq<WireAction>
    var delivered: seq<GameMessage>

    ghost predicate Valid()
      reads this
    {
      reconnectAttempts <= Reconnect.MaxReconnectAttempts
    }

    constructor (serverUrl: string, playerId: string)
      ensures Valid()
      ensures this.serverUrl == serverUrl && this.playerId == playerId
      ensures ws == NoSocket && reconnectAttempts == 0 && url == ""
      ensures wire == [] && delivered == []
    {
      this.serverUrl := serverUrl;
      this.playerId := playerId;
      ws := NoSocket;
      reconnectAttempts := 0;
      url := "";
      wire := [];
      delivered := [];
    }

    /** `connect()`: opens a new socket on `{serverUrl}/game?playerId={playerId}`.
        `rejected` says whether the browser's `WebSocket` constructor throws
        for that URL; the error is caught and nothing changes. */
    method Connect(rejected: bool)
      requires Valid()
      modifies this`ws, this`url
      ensures Valid()
      ensures rejected ==> ws == old(ws) && url == old(url)
      ensures !rejected ==> ws == Connecting && url == SocketUrl(serverUrl, playerId)
    {
      if !rejected {
        ws := Connecting;
        url := SocketUrl(serverUrl, playerId);
      }
    }

    /** `sendMessage`: writes only on a socket that exists and is OPEN. */
    method SendMessage(message: GameMessage) returns (written: bool)
      requires Valid()
      modifies this`wire
      ensures Valid()
      ensures written <==> ws == Open
      ensures wire == if written then old(wire) + [Send(message)] else old(wire)
    {
      written := ws == Open;
      if written {
        wire := wire + [Send(message)];
      }
    }

    /** The socket's `open` event (fired only while it is connecting): the
        counter resets and one `player_join` for this session's player goes out. */
    method OnOpen(now: int)
      requires Valid() && ws == Connecting
      modifies this`ws, this`reconnectAttempts, this`wire
      ensures Valid()
      ensures ws == Open && reconnectAttempts == 0
      ensures wire == old(wire) + [Send(GameMessage(playerId, PlayerJoin, now))]
    {
      ws := Open;
      reconnectAttempts := 0;
      var written := SendMessage(GameMessage(playerId, PlayerJoin, now));
    }

    /** The socket's `message` event: a frame that parses reaches `onMessage`;
        one that does not is logged and changes nothing. */
    method OnMessage(frame: Frame)
      requires Valid()
      modifies this`delivered
      ensures Valid()
      ensures delivered == if frame.Parsed? then old(delivered) + [frame.message] else old(delivered)
    {
      if frame.Parsed? {
        delivered := delivered + [frame.message];
      }
    }

    /** `attemptReconnect`: returns the delay of the `connect()` it schedules. */
    method AttemptReconnect() returns (delay: Option<nat>)
      requires Valid()
      modifies this`reconnectAttempts
      ensures Valid()
      ensures Reconnect.Decision(reconnectAttempts, delay) == Reconnect.AttemptReconnect(old(reconnectAttempts))
    {
      var d := Reconnect.AttemptReconnect(reconnectAttempts);
      reconnectAttempts := d.attempts;
      delay := d.delay;
    }

    /** The socket's `close` event. The handler belongs to the socket, not to
        the field, so it also runs for a socket that `disconnect()` already
        dropped: `ws` stays null but a reconnect is still scheduled. */
    method OnClose() returns (delay: Option<nat>)
      requires Valid()
      modifies this`ws, this`reconnectAttempts
      ensures Valid()
      ensures ws == if old(ws) == NoSocket then NoSocket else Closed
      ensures Reconnect.Decision(reconnectAttempts, delay) == Reconnect.AttemptReconnect(old(reconnectAttempts))
    {
      if ws != NoSocket {
        ws := Closed;
      }
      delay := AttemptReconnect();
    }

    method SendPositionUpdate(position: Vec2, gps: Gps, now: int)
      requires Valid()
      modifies this`wire
      ensures Valid()
      ensures wire == if ws == Open then old(wire) + [Send(GameMessage(playerId, PositionUpdate(position, gps), now))] else old(wire)
    {
      var written := SendMessage(GameMessage(playerId, PositionUpdate(position, gps), now));
    }

    method SendShoot(targetId: string, crosshair: Vec2, now: int)
      requires Valid()
      modifies this`wire
      ensures Valid()
      ensures wire == if ws == Open then old(wire) + [Send(GameMessage(playerId, Shoot(targetId, crosshair), now))] else old(wire)
    {
      var written := SendMessage(GameMessage(playerId, Shoot(targetId, crosshair), now));
    }

    method SendHit(targetId: string, damage: int, now: int)
      requires Valid()
      modifies this`wire
      ensures Valid()
      ensures wire == if ws == Open then old(wire) + [Send(GameMessage(playerId, Hit(targetId, damage), now))] else old(wire)
    {
      var written := SendMessage(GameMessage(playerId, Hit(targetId, damage), now));
    }

    method SendElimination(targetId: string, now: int)
      requires Valid()
      modifies this`wire
      ensures Valid()
      ensures wire == if ws == Open then old(wire) + [Send(GameMessage(playerId, Elimination(targetId), now))] else old(wire)
    {
      var written := SendMessage(GameMessage(playerId, Elimination(targetId), now));
    }

    /** `disconnect()`: with a socket, a `player_leave` goes out first (when
        the socket is open), then `close()` is called and the field is
        cleared; without one it does nothing. */
    method Disconnect(now: int)
      requires Valid()
      modifies this`ws, this`wire
      ensures Valid()
      ensures ws == NoSocket
      ensures old(ws) == NoSocket ==> wire == old(wire)
      ensures old(ws) == Open ==> wire == old(wire) + [Send(GameMessage(playerId, PlayerLeave, now)), CloseCall]
      ensures old(ws) != NoSocket && old(ws) != Open ==> wire == old(wire) + [CloseCall]
    {
      if ws != NoSocket {
        var written := SendMessage(GameMessage(playerId, PlayerLeave, now));
        wire := wire + [CloseCall];
        ws := NoSocket;
      }
    }
  }

  /** A full session: connect, open, disconnect. The server sees the join,
      then the leave, then the close — and the close event that follows
      still schedules a reconnect one second later. */
  method SessionScenario(serverUrl: string, playerId: string, t0: int, t1: int)
    returns (wire: seq<WireAction>, delay: Option<nat>)
    ensures wire == [Send(GameMessage(playerId, PlayerJoin, t0)), Send(GameMessage(playerId, PlayerLeave, t1)), CloseCall]
    ensures delay == Some(Reconnect.ReconnectDelay)
  {
    var c := new MultiplayerWebSocket(serverUrl, playerId);
    c.Connect(false);
    c.OnOpen(t0);
    c.Disconnect(t1);
    delay := c.OnClose();
    wire := c.wire;
  }

  /** A socket that never opens: the close events schedule retries after
      1, 2, 3, 4 and 5 seconds, and the sixth schedules nothing. */
  method FailingServerScenario(serverUrl: string, playerId: string)
    returns (delays: seq<Option<nat>>)
    ensures delays == [Some(1000), Some(2000), Some(3000), Some(4000), Some(5000), None]
  {
    var c := new MultiplayerWebSocket(serverUrl, playerId);
    delays := [];
    var i := 0;
    while i < 6
      invariant 0 <= i <= 6
      invariant c.Valid() && c.reconnectAttempts == if i < 5 then i else 5
      invariant |delays| == i
      invariant forall k :: 0 <= k < i ==> delays[k] == if k < 5 then Some(1000 * (k + 1)) else None
    {
      c.Connect(false);
      var d := c.OnClose();
      delays := delays + [d];
      i := i + 1;
    }
  }

  // ---------------------------------------------------------------------
  // DemoMultiplayer: a local stand-in for the game server.

  datatype PlayerData = PlayerData(
    id: string, nama: string, tim: Team, position: Vec2, gps: Gps,
    isAlive: bool, health: int, kills: nat, deaths: nat, lastSeen: int)

  /** The payload handed to a registered event handler. */
  datatype EventData =
    | JoinEvent(playerId: string, player: PlayerData)
    | PositionEvent(playerId: string, position: Vec2, gps: Gps)
    | EliminationEvent(targetId: string, killedBy: string)
    | HitEvent(targetId: string, damage: int, shooterId: string)

  datatype Emitted = Emitted(event: string, data: EventData)

  const ShotDamage: int := 25

  predicate UniqueIds(ps: seq<PlayerData>) {
    forall i, j :: 0 <= i < j < |ps| ==> ps[i].id != ps[j].id
  }

  /** `players.get(id)`: the position of the entry with that key. */
  function IndexOf(ps: seq<PlayerData>, id: string): (r: Option<nat>)
    ensures r.Some? ==> r.value < |ps| && ps[r.value].id == id
    ensures r.None? ==> forall i :: 0 <= i < |ps| ==> ps[i].id != id
  {
    if ps == [] then None
    else if ps[0].id == id then Some(0)
    else match IndexOf(ps[1..], id)
      case None => None
      case Some(k) => Some(k + 1)
  }

  /** `players.set(p.id, p)`: replaces the entry in place, or appends it. */
  function SetPlayer(ps: seq<PlayerData>, p: PlayerData): (r: seq<PlayerData>)
    requires UniqueIds(ps)
    ensures UniqueIds(r)
    ensures IndexOf(ps, p.id).Some? ==> r == ps[IndexOf(ps, p.id).value := p]
    ensures IndexOf(ps, p.id).None? ==> r == ps + [p]
  {
    match IndexOf(ps, p.id)
    case Some(i) => ps[i := p]
    case None => ps + [p]
  }

  /** The demo roster: players 1 and 2 exist from the start, 3 and 4 join
      after two and four seconds. */
  function DemoPlayer(n: nat, now: int): (p: PlayerData)
    requires 1 <= n <= 4
    ensures p.isAlive && p.health == 100 && p.kills == 0 && p.deaths == 0
    ensures p.tim == if n % 2 == 1 then Merah else Putih
  {
    if n == 1 then PlayerData("player1", "Player 1 (Merah)", Merah, Vec2(100.0, 100.0), Gps(-6.2088, 106.8456), true, 100, 0, 0, now)
    else if n == 2 then PlayerData("player2", "Player 2 (Putih)", Putih, Vec2(400.0, 300.0), Gps(-6.2089, 106.8457), true, 100, 0, 0, now)
    else if n == 3 then PlayerData("player3", "Player 3 (Merah)", Merah, Vec2(200.0, 150.0), Gps(-6.2087, 106.8455), true, 100, 0, 0, now)
    else PlayerData("player4", "Player 4 (Putih)", Putih, Vec2(350.0, 250.0), Gps(-6.2090, 106.8458), true, 100, 0, 0, now)
  }

  /** Hit detection of `handleShoot`: distance from the crosshair below 100,
      compared on squares. */
  predicate InRange(crosshair: Vec2, position: Vec2) {
    var dx := crosshair.x - position.x;
    var dy := crosshair.y - position.y;
    dx * dx + dy * dy < 10000.0
  }

  /** The target after one hit. */
  function Damaged(p: PlayerData): (q: PlayerData)
    requires p.isAlive
    ensures q.id == p.id && q.position == p.position && q.kills == p.kills && q.tim == p.tim
    ensures q.health == p.health - ShotDamage
    ensures q.isAlive <==> q.health > 0
    ensures q.deaths == if q.health <= 0 then p.deaths + 1 else p.deaths
  {
    var hp := p.health - ShotDamage;
    if hp <= 0 then p.(health := hp, isAlive := false, deaths := p.deaths + 1)
    else p.(health := hp)
  }

  /** A player's record is consistent: alive exactly while health is
      positive, and one death recorded once eliminated. */
  predicate Consistent(p: PlayerData) {
    (p.isAlive <==> p.health > 0) && p.deaths == (if p.isAlive then 0 else 1)
  }

  /** A hit keeps a living player's record consistent, and four hits
      eliminate a full-health player. */
  lemma DamagePreservesConsistency(p: PlayerData)
    requires Consistent(p) && p.isAlive
    ensures Consistent(Damaged(p))
    ensures p.health == 100 ==> !Damaged(Damaged(Damaged(Damaged(p)))).isAlive
  {
  }

  /** The players after a shot at `targetId`: a living target within range
      of the crosshair takes one hit; otherwise nobody changes. */
  function Shot(ps: seq<PlayerData>, targetId: string, crosshair: Vec2): seq<PlayerData> {
    var t := IndexOf(ps, targetId);
    if t.Some? && ps[t.value].isAlive && InRange(crosshair, ps[t.value].position)
    then ps[t.value := Damaged(ps[t.value])]
    else ps
  }

  /** The events a shot hands to registered handlers: `elimination` when
      the hit kills, then `hit`. */
  function ShotEvents(ps: seq<PlayerData>, handlers: set<string>, shooterId: string, targetId: string, crosshair: Vec2): seq<Emitted> {
    var t := IndexOf(ps, targetId);
    if t.Some? && ps[t.value].isAlive && InRange(crosshair, ps[t.value].position) then
      (if !Damaged(ps[t.value]).isAlive && "elimination" in handlers
       then [Emitted("elimination", EliminationEvent(targetId, shooterId))] else [])
      + (if "hit" in handlers then [Emitted("hit", HitEvent(targetId, ShotDamage, shooterId))] else [])
    else []
  }

  /** A shot changes only the living, in-range target, which loses exactly
      25 health; any other shot changes nobody and emits nothing; the
      `elimination` event is emitted exactly when the target dies, and the
      `hit` event comes last. */
  lemma ShotSpec(ps: seq<PlayerData>, handlers: set<string>, shooterId: string, targetId: string, crosshair: Vec2)
    requires UniqueIds(ps)
    ensures var r := Shot(ps, targetId, crosshair);
      |r| == |ps| && UniqueIds(r)
      && forall i :: 0 <= i < |ps| ==>
        if ps[i].id == targetId && ps[i].isAlive && InRange(crosshair, ps[i].position)
        then r[i] == Damaged(ps[i]) && r[i].health == ps[i].health - ShotDamage
        else r[i] == ps[i]
    ensures var r := Shot(ps, targetId, crosshair);
      var es := ShotEvents(ps, handlers, shooterId, targetId, crosshair);
      (r == ps ==> es == [])
      && (Emitted("elimination", EliminationEvent(targetId, shooterId)) in es
          <==> "elimination" in handlers && exists i :: 0 <= i < |ps| && ps[i].isAlive && !r[i].isAlive)
      && (r != ps && "hit" in handlers ==> es[|es| - 1] == Emitted("hit", HitEvent(targetId, ShotDamage, shooterId)))
  {
    var t := IndexOf(ps, targetId);
    var r := Shot(ps, targetId, crosshair);
    if t.Some? && ps[t.value].isAlive && InRange(crosshair, ps[t.value].position) {
      assert r[t.value] != ps[t.value] by {
        assert r[t.value].health == ps[t.value].health - ShotDamage;
      }
      forall i | 0 <= i < |ps| && !ps[i].isAlive
        ensures !r[i].isAlive
      {
      }
    }
  }

  /** `handlePositionUpdate`'s effect: the sender's position, GPS fix and
      last-seen time, when the sender is known. */
  function Relocated(ps: seq<PlayerData>, senderId: string, position: Vec2, gps: Gps, now: int): (r: seq<PlayerData>)
    ensures |r| == |ps|
    ensures forall i :: 0 <= i < |ps| ==>
      r[i] == if ps[i].id == senderId && IndexOf(ps, senderId) == Some(i)
        then ps[i].(position := position, gps := gps, lastSeen := now) else ps[i]
  {
    match IndexOf(ps, senderId)
    case Some(s) => ps[s := ps[s].(position := position, gps := gps, lastSeen := now)]
    case None => ps
  }

  /** `handleHit`'s effect: one more kill for the sender, when known. */
  function Credited(ps: seq<PlayerData>, senderId: string): (r: seq<PlayerData>)
    ensures |r| == |ps|
    ensures forall i :: 0 <= i < |ps| ==>
      r[i] == if ps[i].id == senderId && IndexOf(ps, senderId) == Some(i)
        then ps[i].(kills := ps[i].kills + 1) else ps[i]
  {
    match IndexOf(ps, senderId)
    case Some(s) => ps[s := ps[s].(kills := ps[s].kills + 1)]
    case None => ps
  }

  /** The random spot of the update interval for the pair `(u, v)`. */
  function NewPosition(r: Vec2): Vec2 {
    Vec2(r.x * 600.0 + 50.0, r.y * 300.0 + 50.0)
  }

  /** The update interval moves the living players other than the local one. */
  predicate Roams(p: PlayerData, playerId: string) {
    p.id != playerId && p.isAlive
  }

  /** The `position_update` events of one firing of the interval, one per
      moved player in map order, each carrying its new position and its GPS
      fix. */
  function MovedEvents(ps: seq<PlayerData>, rand: seq<Vec2>, playerId: string): (es: seq<Emitted>)
    requires |rand| == |ps|
    ensures |es| <= |ps|
    ensures forall e :: e in es ==> e.event == "position_update"
    ensures (forall i :: 0 <= i < |ps| ==> !Roams(ps[i], playerId)) ==> es == []
  {
    if ps == [] then []
    else
      var n := |ps| - 1;
      MovedEvents(ps[..n], rand[..n], playerId)
        + (if Roams(ps[n], playerId) then [Emitted("position_update", PositionEvent(ps[n].id, NewPosition(rand[n]), ps[n].gps))] else [])
  }

  class DemoMultiplayer {
    const playerId: string
    /** The `players` Map, in insertion order. */
    var players: seq<PlayerData>
    /** Events with a registered handler. */
    var handlers: set<string>
    /** Events handed to a registered handler, in order. */
    var emitted: seq<Emitted>
    var intervalActive: bool

    ghost predicate Valid()
      reads this
    {
      UniqueIds(players) && forall i :: 0 <= i < |players| ==> Consistent(players[i])
    }

    constructor (playerId: string, now: int)
      ensures Valid()
      ensures this.playerId == playerId
      ensures players == [DemoPlayer(1, now), DemoPlayer(2, now)]
      ensures handlers == {} && emitted == [] && !intervalActive
    {
      this.playerId := playerId;
      players := [DemoPlayer(1, now), DemoPlayer(2, now)];
      handlers := {};
      emitted := [];
      intervalActive := false;
    }

    method On(event: string)
      modifies this`handlers
      ensures handlers == old(handlers) + {event}
    {
      handlers := handlers + {event};
    }

    method Off(event: string)
      modifies this`handlers
      ensures handlers == old(handlers) - {event}
    {
      handlers := handlers - {event};
    }

    /** `emit`: only events with a registered handler reach anyone. */
    method Emit(event: string, data: EventData)
      modifies this`emitted
      ensures emitted == if event in handlers then old(emitted) + [Emitted(event, data)] else old(emitted)
    {
      if event in handlers {
        emitted := emitted + [Emitted(event, data)];
      }
    }

    /** The timers started by the constructor: player 3 (n = 3) and
        player 4 (n = 4) join and a `player_join` is emitted. */
    method OnJoinTimer(n: nat, now: int)
      requires Valid() && (n == 3 || n == 4)
      modifies this`players, this`emitted
      ensures Valid()
      ensures players == SetPlayer(old(players), DemoPlayer(n, now))
      ensures emitted == if "player_join" in handlers
        then old(emitted) + [Emitted("player_join", JoinEvent(DemoPlayer(n, now).id, DemoPlayer(n, now)))]
        else old(emitted)
    {
      var p := DemoPlayer(n, now);
      players := SetPlayer(players, p);
      forall i | 0 <= i < |players| ensures Consistent(players[i]) {
        if IndexOf(old(players), p.id).None? && i == |old(players)| {
          assert players[i] == p;
        }
      }
      Emit("player_join", JoinEvent(p.id, p));
    }

    method Connect()
      modifies this`intervalActive
      ensures intervalActive
    {
      intervalActive := true;
    }

    method Disconnect()
      modifies this`intervalActive
      ensures !intervalActive
    {
      intervalActive := false;
    }

    /** One firing of the two-second interval: every living player other
        than the local one jumps to `NewPosition(rand[i])` for its random
        pair `rand[i]`, is marked seen, and a `position_update` is emitted
        for it, in map order. Without a running interval nothing happens. */
    method OnInterval(rand: seq<Vec2>, now: int)
      requires Valid() && |rand| == |players|
      modifies this`players, this`emitted
      ensures Valid()
      ensures |players| == |old(players)|
      ensures forall i :: 0 <= i < |players| ==>
        players[i] == if intervalActive && Roams(old(players)[i], playerId)
          then old(players)[i].(position := NewPosition(rand[i]), lastSeen := now)
          else old(players)[i]
      ensures emitted == old(emitted)
        + (if intervalActive && "position_update" in handlers then MovedEvents(old(players), rand, playerId) else [])
    {
      if !intervalActive {
        return;
      }
      var i := 0;
      while i < |players|
        invariant 0 <= i <= |players| == |old(players)|
        invariant Valid()
        invariant forall k :: 0 <= k < |players| ==>
          players[k] == if k < i && Roams(old(players)[k], playerId)
            then old(players)[k].(position := NewPosition(rand[k]), lastSeen := now)
            else old(players)[k]
        invariant emitted == old(emitted)
          + (if "position_update" in handlers then MovedEvents(old(players)[..i], rand[..i], playerId) else [])
      {
        var p := players[i];
        assert old(players)[..i + 1][..i] == old(players)[..i];
        assert rand[..i + 1][..i] == rand[..i];
        if Roams(p, playerId) {
          var pos := NewPosition(rand[i]);
          players := players[i := p.(position := pos, lastSeen := now)];
          Emit("position_update", PositionEvent(p.id, pos, p.gps));
        }
        i := i + 1;
      }
      assert old(players)[..i] == old(players);
      assert rand[..i] == rand;
    }

    /** `handleShoot`: the players and events become those of `Shot` and
        `ShotEvents` (see `ShotSpec`). */
    method HandleShoot(shooterId: string, targetId: string, crosshair: Vec2)
      requires Valid()
      modifies this`players, this`emitted
      ensures Valid()
      ensures players == Shot(old(players), targetId, crosshair)
      ensures emitted == old(emitted) + ShotEvents(old(players), handlers, shooterId, targetId, crosshair)
    {
      var t := IndexOf(players, targetId);
      if t.Some? && players[t.value].isAlive && InRange(crosshair, players[t.value].position) {
        var q := Damaged(players[t.value]);
        DamagePreservesConsistency(players[t.value]);
        players := players[t.value := q];
        if !q.isAlive {
          Emit("elimination", EliminationEvent(targetId, shooterId));
        }
        Emit("hit", HitEvent(targetId, ShotDamage, shooterId));
      }
    }

    /** `handlePositionUpdate`: only the sender's position, GPS fix and
        last-seen time change; an unknown sender changes nothing. */
    method HandlePositionUpdate(senderId: string, position: Vec2, gps: Gps, now: int)
      requires Valid()
      modifies this`players
      ensures Valid()
      ensures players == Relocated(old(players), senderId, position, gps, now)
    {
      var s := IndexOf(players, senderId);
      if s.Some? {
        players := players[s.value := players[s.value].(position := position, gps := gps, lastSeen := now)];
      }
    }

    /** `handleHit`: the sender gets one kill; an unknown sender changes nothing. */
    method HandleHit(senderId: string)
      requires Valid()
      modifies this`players
      ensures Valid()
      ensures players == Credited(old(players), senderId)
    {
      var s := IndexOf(players, senderId);
      if s.Some? {
        players := players[s.value := players[s.value].(kills := players[s.value].kills + 1)];
      }
    }

    /** `sendMessage`: shoot, position and hit messages are processed by
        their handlers; every other type is only logged. */
    method SendMessage(message: GameMessage, now: int)
      requires Valid()
      modifies this`players, this`emitted
      ensures Valid()
      ensures message.body.Shoot? ==>
        players == Shot(old(players), message.body.targetId, message.body.crosshair)
        && emitted == old(emitted) + ShotEvents(old(players), handlers, message.playerId, message.body.targetId, message.body.crosshair)
      ensures message.body.PositionUpdate? ==>
        players == Relocated(old(players), message.playerId, message.body.position, message.body.gps, now)
        && emitted == old(emitted)
      ensures message.body.Hit? ==>
        players == Credited(old(players), message.playerId) && emitted == old(emitted)
      ensures !(message.body.Shoot? || message.body.PositionUpdate? || message.body.Hit?) ==>
        players == old(players) && emitted == old(emitted)
    {
      match message.body
      case Shoot(targetId, crosshair) => HandleShoot(message.playerId, targetId, crosshair);
      case PositionUpdate(position, gps) => HandlePositionUpdate(message.playerId, position, gps, now);
      case Hit(_, _) => HandleHit(message.playerId);
      case _ =>
    }
  }
}
