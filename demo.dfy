/** The demo page (src/app/demo/page.tsx): two players, a start button
    that counts down three seconds, a clock that runs only while the game is
    playing, and a button that lets one player kill another. */
module DemoPage {

  import opened Common

  datatype Player = Player(
    id: string, nama: string, tim: Team, isAlive: bool,
    health: int, kills: int, deaths: int, position: Vec2)

  datatype Status = Waiting | Countdown | Playing | Finished

  datatype GameState = GameState(status: Status, timeLeft: int, players: seq<Player>, winner: Option<Team>, gameTime: int)

  function AliveOn(team: Team): Player -> bool {
    (p: Player) => p.tim == team && p.isAlive
  }

  function AliveCount(ps: seq<Player>, team: Team): nat {
    |Filter(ps, AliveOn(team))|
  }

  // ---------------------------------------------------------------------
  // Set-up

  const DemoPlayers: seq<Player> := [
    Player("player1", "Player 1 (Merah)", Merah, true, 100, 0, 0, Vec2(100.0, 100.0)),
    Player("player2", "Player 2 (Putih)", Putih, true, 100, 0, 0, Vec2(400.0, 300.0))]

  /** `resetGame`: back to waiting, five minutes on the clock, both demo
      players alive with full health and no kills, no winner. */
  function Reset(): (r: GameState)
    ensures r.status == Waiting && r.timeLeft == 300 && r.winner.None? && r.gameTime == 0
    ensures |r.players| == 2 && AliveCount(r.players, Merah) == 1 && AliveCount(r.players, Putih) == 1
    ensures forall i :: 0 <= i < 2 ==> r.players[i].health == 100 && r.players[i].kills == 0 && r.players[i].deaths == 0
  {
    GameState(Waiting, 300, DemoPlayers, None, 0)
  }

  /** `startGame`, first half: the countdown begins, from whatever status. */
  function StartGame(s: GameState): (r: GameState)
    ensures r.status == Countdown && r.(status := s.status) == s
  {
    s.(status := Countdown)
  }

  /** `startGame`, second half: three seconds later the game is playing. */
  function CountdownOver(s: GameState): (r: GameState)
    ensures r.status == Playing && r.(status := s.status) == s
  {
    s.(status := Playing)
  }

  // ---------------------------------------------------------------------
  // The clock

  /** When time runs out merah wins only with strictly more living players;
      a tie goes to putih. */
  function TimeUpWinner(ps: seq<Player>): Team {
    if AliveCount(ps, Merah) > AliveCount(ps, Putih) then Merah else Putih
  }

  /** One tick of the interval. */
  function Tick(s: GameState): GameState {
    var t := s.timeLeft - 1;
    if t <= 0 then s.(status := Finished, timeLeft := 0, winner := Some(TimeUpWinner(s.players)), gameTime := s.gameTime + 1)
    else s.(timeLeft := t, gameTime := s.gameTime + 1)
  }

  /** One second of the page: the interval exists only while playing. */
  function Second(s: GameState): GameState {
    if s.status == Playing then Tick(s) else s
  }

  function Seconds(s: GameState, n: nat): GameState
    decreases n
  {
    if n == 0 then s else Seconds(Second(s), n - 1)
  }

  /** A tick moves one second from the clock to the elapsed time; when the
      clock would reach zero the game is finished with the clock at zero,
      and otherwise nothing else changes. */
  lemma TickSpec(s: GameState)
    ensures var r := Tick(s);
      r.gameTime == s.gameTime + 1 && r.players == s.players
      && (s.timeLeft > 1 ==> r == s.(timeLeft := s.timeLeft - 1, gameTime := s.gameTime + 1))
      && (s.timeLeft <= 1 ==>
            r.status == Finished && r.timeLeft == 0
            && (r.winner == Some(Merah) <==> AliveCount(s.players, Merah) > AliveCount(s.players, Putih))
            && (r.winner == Some(Putih) <==> AliveCount(s.players, Merah) <= AliveCount(s.players, Putih)))
  {
  }

  /** A game playing with `n` seconds left finishes after exactly `n`
      seconds, having counted each of them in `gameTime`; after that the
      clock stops. */
  lemma {:induction false} GameLasts(s: GameState, n: nat, k: nat)
    requires s.status == Playing && s.timeLeft == n >= 1
    ensures var r := Seconds(s, k);
      r.players == s.players
      && (k < n ==> r.status == Playing && r.timeLeft == n - k && r.gameTime == s.gameTime + k)
      && (k >= n ==>
            r.status == Finished && r.timeLeft == 0 && r.gameTime == s.gameTime + n
            && r.winner == Some(TimeUpWinner(s.players)))
    decreases k
  {
    if k > 0 {
      if n == 1 {
        StoppedClock(Second(s), k - 1);
      } else {
        GameLasts(Second(s), n - 1, k - 1);
      }
    }
  }

  /** Once the game is not playing, time passing changes nothing. */
  lemma {:induction false} StoppedClock(s: GameState, k: nat)
    requires s.status != Playing
    ensures Seconds(s, k) == s
    decreases k
  {
    if k > 0 {
      StoppedClock(s, k - 1);
    }
  }

  // ---------------------------------------------------------------------
  // Kills

  function Credit(p: Player, killerId: string, victimId: string): Player {
    if p.id == killerId then p.(kills := p.kills + 1)
    else if p.id == victimId then p.(isAlive := false, deaths := p.deaths + 1, health := 0)
    else p
  }

  /** `simulateKill(killerId, victimId)`. */
  function SimulateKill(s: GameState, killerId: string, victimId: string): GameState {
    var ps := seq(|s.players|, i requires 0 <= i < |s.players| => Credit(s.players[i], killerId, victimId));
    var m := AliveCount(ps, Merah);
    var p := AliveCount(ps, Putih);
    if m == 0 || p == 0 then s.(players := ps, status := Finished, winner := Some(if m == 0 then Putih else Merah))
    else s.(players := ps)
  }

  /** The killer gains one kill; the victim (when not also the killer) is
      out with one more death and no health; everyone else is unchanged.
      When a team has nobody left the other team wins; otherwise only the
      players change. No team ever gains living players. */
  lemma {:induction false} SimulateKillSpec(s: GameState, killerId: string, victimId: string)
    ensures var r := SimulateKill(s, killerId, victimId);
      |r.players| == |s.players|
      && (forall i :: 0 <= i < |s.players| ==>
            (s.players[i].id == killerId ==> r.players[i] == s.players[i].(kills := s.players[i].kills + 1))
            && (s.players[i].id != killerId && s.players[i].id == victimId ==>
                  r.players[i] == s.players[i].(isAlive := false, deaths := s.players[i].deaths + 1, health := 0))
            && (s.players[i].id != killerId && s.players[i].id != victimId ==> r.players[i] == s.players[i]))
      && AliveCount(r.players, Merah) <= AliveCount(s.players, Merah)
      && AliveCount(r.players, Putih) <= AliveCount(s.players, Putih)
      && (AliveCount(r.players, Merah) == 0 ==> r.status == Finished && r.winner == Some(Putih))
      && (AliveCount(r.players, Merah) > 0 && AliveCount(r.players, Putih) == 0 ==> r.status == Finished && r.winner == Some(Merah))
      && (AliveCount(r.players, Merah) > 0 && AliveCount(r.players, Putih) > 0 ==> r == s.(players := r.players))
  {
    var r := SimulateKill(s, killerId, victimId);
    FilterFewer(s.players, r.players, AliveOn(Merah));
    FilterFewer(s.players, r.players, AliveOn(Putih));
  }
}
