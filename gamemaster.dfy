/** The game-master panel (src/app/game-master/page.tsx): start, pause and
    stop buttons, a clock that runs while the game is playing, player
    selection and the spectator view, and the per-team rosters. */
module GameMasterPage {

  import opened Common

  datatype Player = Player(
    id: string, nama: string, tim: Team, health: int, ammo: int,
    position: Vec2, isAlive: bool, kills: int, deaths: int, lastSeen: int)

  datatype Status = Waiting | Playing | Paused | Finished

  datatype ViewMode = Overview | PlayerView | Spectator

  datatype GameMasterState = GameMasterState(
    status: Status, timeLeft: int, players: seq<Player>,
    selectedPlayer: Option<string>, viewMode: ViewMode)

  /** `handleStartGame`: playing, from any status. */
  function Start(s: GameMasterState): (r: GameMasterState)
    ensures r.status == Playing && r.(status := s.status) == s
  {
    s.(status := Playing)
  }

  /** `handlePauseGame`: playing becomes paused, anything else playing. */
  function Pause(s: GameMasterState): (r: GameMasterState)
    ensures r.(status := s.status) == s
    ensures r.status == Paused <==> s.status == Playing
    ensures r.status == Playing <==> s.status != Playing
  {
    s.(status := if s.status == Playing then Paused else Playing)
  }

  /** Pausing twice from playing or paused returns to the same state: the
      button toggles between the two. */
  lemma PauseToggles(s: GameMasterState)
    requires s.status == Playing || s.status == Paused
    ensures Pause(Pause(s)) == s
  {
  }

  /** `handleStopGame`: finished, from any status. */
  function Stop(s: GameMasterState): (r: GameMasterState)
    ensures r.status == Finished && r.(status := s.status) == s
  {
    s.(status := Finished)
  }

  /** `handleSelectPlayer`. */
  function SelectPlayer(s: GameMasterState, playerId: string): (r: GameMasterState)
    ensures r.selectedPlayer == Some(playerId) && r.viewMode == PlayerView
    ensures r.(selectedPlayer := s.selectedPlayer, viewMode := s.viewMode) == s
  {
    s.(selectedPlayer := Some(playerId), viewMode := PlayerView)
  }

  /** `handleSpectatorMode`; the camera panel it also opens is not state of
      this reducer. */
  function SpectatorMode(s: GameMasterState): (r: GameMasterState)
    ensures r.viewMode == Spectator && r.(viewMode := s.viewMode) == s
  {
    s.(viewMode := Spectator)
  }

  // ---------------------------------------------------------------------
  // The clock

  /** One second of the page: while playing, the clock loses a second but
      stops at zero; in any other status the interval does not exist. */
  function Second(s: GameMasterState): GameMasterState {
    if s.status == Playing then s.(timeLeft := if s.timeLeft - 1 > 0 then s.timeLeft - 1 else 0) else s
  }

  function Seconds(s: GameMasterState, n: nat): GameMasterState
    decreases n
  {
    if n == 0 then s else Seconds(Second(s), n - 1)
  }

  function Clamped(t: int, k: nat): int {
    if t - k > 0 then t - k else 0
  }

  /** After `k >= 1` seconds of play the clock shows `max(0, t - k)`, and nothing
      else has changed: running out of time does not end the game on this
      panel. Outside play the clock stands still. */
  lemma {:induction false} ClockRuns(s: GameMasterState, k: nat)
    ensures s.status == Playing && k > 0 ==> Seconds(s, k) == s.(timeLeft := Clamped(s.timeLeft, k))
    ensures s.status != Playing ==> Seconds(s, k) == s
    decreases k
  {
    if k > 0 {
      ClockRuns(Second(s), k - 1);
      if s.status == Playing && k > 1 {
        assert Clamped(Clamped(s.timeLeft, 1), k - 1) == Clamped(s.timeLeft, k);
      }
    }
  }

  // ---------------------------------------------------------------------
  // Rosters

  function OnTeam(team: Team): Player -> bool {
    (p: Player) => p.tim == team
  }

  function Alive(): Player -> bool {
    (p: Player) => p.isAlive
  }

  function Anyone(): Player -> bool {
    (p: Player) => true
  }

  /** The merah and putih rosters split the player list, each keeps exactly
      that team's players, and the living players are at most all of them. */
  lemma Rosters(ps: seq<Player>)
    ensures |Filter(ps, OnTeam(Merah))| + |Filter(ps, OnTeam(Putih))| == |ps|
    ensures forall p :: p in Filter(ps, OnTeam(Merah)) <==> p in ps && p.tim == Merah
    ensures forall p :: p in Filter(ps, OnTeam(Putih)) <==> p in ps && p.tim == Putih
    ensures |Filter(ps, Alive())| <= |ps|
  {
    FilterSplit(ps, Anyone(), OnTeam(Merah), OnTeam(Putih));
    FilterAll(ps, Anyone());
    forall p ensures p in Filter(ps, OnTeam(Merah)) <==> p in ps && p.tim == Merah {
      FilterMembership(ps, OnTeam(Merah), p);
    }
    forall p ensures p in Filter(ps, OnTeam(Putih)) <==> p in ps && p.tim == Putih {
      FilterMembership(ps, OnTeam(Putih), p);
    }
  }
}
