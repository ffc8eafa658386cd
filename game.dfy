/** The in-game page (src/app/game/page.tsx): ten players in two teams, a
    one-second clock that ends the round at zero, and a three-second timer
    that may eliminate a random living player. Each `setGameState(prev => …)`
    update is a function from the previous state to the next one; the random
    draws are parameters. */
module GamePage {

  import opened Common

  datatype Player = Player(
    id: string, nama: string, health: int, ammo: int, position: Vec2,
    team: Team, isAlive: bool, kills: int, deaths: int)

  datatype Status = Playing | Finished

  datatype Score = Score(merah: nat, putih: nat)

  datatype GameState = GameState(status: Status, timeLeft: int, score: Score, players: seq<Player>, winner: Option<Team>)

  function PlayerId(p: Player): string { p.id }

  function Alive(): Player -> bool {
    (p: Player) => p.isAlive
  }

  function AliveOn(team: Team): Player -> bool {
    (p: Player) => p.team == team && p.isAlive
  }

  function AliveCount(ps: seq<Player>, team: Team): nat {
    |Filter(ps, AliveOn(team))|
  }

  /** The scoreboard shows the living players of each team. */
  function AliveScore(ps: seq<Player>): Score {
    Score(AliveCount(ps, Merah), AliveCount(ps, Putih))
  }

  /** Every living player is on exactly one of the two teams. */
  lemma AliveSplit(ps: seq<Player>)
    ensures AliveCount(ps, Merah) + AliveCount(ps, Putih) == |Filter(ps, Alive())|
  {
    FilterSplit(ps, Alive(), AliveOn(Merah), AliveOn(Putih));
  }

  // ---------------------------------------------------------------------
  // The clock

  /** The winner when time runs out: more living players wins, and a tie
      goes to merah. */
  function TimeUpWinner(ps: seq<Player>): Team {
    var m := AliveCount(ps, Merah);
    var p := AliveCount(ps, Putih);
    if m > p then Merah else if p > m then Putih else Merah
  }

  /** One tick of the one-second interval. */
  function Tick(s: GameState): GameState {
    var t := if s.timeLeft - 1 > 0 then s.timeLeft - 1 else 0;
    if t == 0 then
      s.(timeLeft := 0, status := Finished, winner := Some(TimeUpWinner(s.players)), score := AliveScore(s.players))
    else
      s.(timeLeft := t)
  }

  /** A tick takes one second off the clock and never goes below zero;
      above zero nothing else changes; at zero the round is over, the score
      is the living players per team and merah wins unless putih has
      strictly more of them. */
  lemma TickSpec(s: GameState)
    ensures var r := Tick(s);
      r.timeLeft >= 0 && r.players == s.players
      && (s.timeLeft > 1 ==> r == s.(timeLeft := s.timeLeft - 1))
      && (s.timeLeft <= 1 ==>
            r.timeLeft == 0 && r.status == Finished && r.score == AliveScore(s.players)
            && (r.winner == Some(Merah) <==> AliveCount(s.players, Merah) >= AliveCount(s.players, Putih))
            && (r.winner == Some(Putih) <==> AliveCount(s.players, Putih) > AliveCount(s.players, Merah)))
  {
  }

  /** `n` ticks of the interval. */
  function Ticks(s: GameState, n: nat): GameState
    decreases n
  {
    if n == 0 then s else Ticks(Tick(s), n - 1)
  }

  /** A round that starts with `n` seconds on the clock is over after exactly
      `n` ticks, with no player changed, and still running before that. */
  lemma {:induction false} RoundEndsOnTime(s: GameState, n: nat, k: nat)
    requires s.status == Playing && s.timeLeft == n >= 1 && k <= n
    ensures var r := Ticks(s, k);
      r.players == s.players && r.timeLeft == n - k
      && (k < n ==> r.status == Playing)
      && (k == n ==> r.status == Finished && r.winner == Some(TimeUpWinner(s.players)))
    decreases k
  {
    if k > 0 {
      if n == 1 {
        assert Tick(s).status == Finished;
        assert Ticks(Tick(s), 0) == Tick(s);
      } else {
        RoundEndsOnTime(Tick(s), n - 1, k - 1);
      }
    }
  }

  // ---------------------------------------------------------------------
  // Random eliminations

  function Kill(p: Player): Player {
    p.(isAlive := false, health := 0)
  }

  /** `players.map(p => p.id === id ? {…p, isAlive: false, health: 0} : p)`. */
  function KillId(ps: seq<Player>, id: string): seq<Player> {
    seq(|ps|, i requires 0 <= i < |ps| => if ps[i].id == id then Kill(ps[i]) else ps[i])
  }

  /** Index `floor(pickRoll × n)` of a list of `n` entries. */
  function Pick(pickRoll: real, n: nat): (k: nat)
    requires 0.0 <= pickRoll < 1.0 && n > 0
    ensures k < n
  {
    assert pickRoll * n as real < n as real;
    (pickRoll * n as real).Floor
  }

  /** One run of the three-second elimination timer: `roll` decides whether
      someone is eliminated, `pickRoll` which living player. */
  function Eliminate(s: GameState, roll: real, pickRoll: real): GameState
    requires 0.0 <= pickRoll < 1.0
  {
    if s.status == Finished then s
    else
      var alive := Filter(s.players, Alive());
      if |alive| <= 1 then
        s.(status := Finished, winner := Some(if |alive| == 1 then alive[0].team else Merah), score := AliveScore(s.players))
      else if roll < 0.1 then
        var ps := KillId(s.players, alive[Pick(pickRoll, |alive|)].id);
        s.(players := ps, score := AliveScore(ps))
      else s
  }

  /** With at most one survivor the round ends: the survivor's team wins, or
      merah when nobody is left. */
  lemma EliminateLastStanding(s: GameState, roll: real, pickRoll: real)
    requires 0.0 <= pickRoll < 1.0 && s.status == Playing && |Filter(s.players, Alive())| <= 1
    ensures var r := Eliminate(s, roll, pickRoll);
      r.status == Finished && r.players == s.players && r.score == AliveScore(s.players)
      && ((forall i :: 0 <= i < |s.players| ==> !s.players[i].isAlive) ==> r.winner == Some(Merah))
      && (forall i :: 0 <= i < |s.players| && s.players[i].isAlive ==> r.winner == Some(s.players[i].team))
  {
    var alive := Filter(s.players, Alive());
    if |alive| == 1 {
      assert alive[0] in alive;
      FilterMembership(s.players, Alive(), alive[0]);
    }
    forall i | 0 <= i < |s.players| && s.players[i].isAlive
      ensures |alive| == 1 && alive[0] == s.players[i]
    {
      FilterMembership(s.players, Alive(), s.players[i]);
    }
  }

  /** A finished round is left exactly as it is. */
  lemma EliminateFinished(s: GameState, roll: real, pickRoll: real)
    requires 0.0 <= pickRoll < 1.0 && s.status == Finished
    ensures Eliminate(s, roll, pickRoll) == s
  {
  }

  /** With two or more living players and distinct ids, an elimination either
      changes nothing or puts exactly one living player out (health 0),
      leaves every other player as it was, lowers the number of living
      players by one and keeps the score equal to the living count per team. */
  lemma {:induction false} EliminateOne(s: GameState, roll: real, pickRoll: real)
    requires 0.0 <= pickRoll < 1.0 && s.status == Playing && |Filter(s.players, Alive())| > 1
    requires UniqueKeys(s.players, PlayerId)
    ensures var r := Eliminate(s, roll, pickRoll);
      r.status == Playing && r.winner == s.winner && r.timeLeft == s.timeLeft
      && (roll >= 0.1 ==> r == s)
      && (roll < 0.1 ==>
            r.score == AliveScore(r.players)
            && |Filter(r.players, Alive())| == |Filter(s.players, Alive())| - 1
            && exists k :: 0 <= k < |s.players| && s.players[k].isAlive
                           && r.players == s.players[k := Kill(s.players[k])])
  {
    if roll < 0.1 {
      var alive := Filter(s.players, Alive());
      var victim := alive[Pick(pickRoll, |alive|)];
      assert victim in alive;
      FilterMembership(s.players, Alive(), victim);
      var k :| 0 <= k < |s.players| && s.players[k] == victim;
      var ps := KillId(s.players, victim.id);
      assert ps == s.players[k := Kill(s.players[k])] by {
        forall i | 0 <= i < |ps| ensures ps[i] == s.players[k := Kill(s.players[k])][i] {
          if i != k {
            assert PlayerId(s.players[i]) != PlayerId(s.players[k]);
          }
        }
      }
      FilterUpdate(s.players, k, Kill(s.players[k]), Alive());
    }
  }

  // ---------------------------------------------------------------------
  // Health colour

  datatype Tone = Green | Yellow | Red

  /** `getHealthColor`: green above 70, yellow above 30, red otherwise. */
  function HealthColor(health: int): (c: Tone)
    ensures c == Green <==> health > 70
    ensures c == Red <==> health <= 30
  {
    if health > 70 then Green else if health > 30 then Yellow else Red
  }

  function ToneRank(c: Tone): nat {
    match c
    case Red => 0
    case Yellow => 1
    case Green => 2
  }

  /** More health never shows a worse colour. */
  lemma HealthColorMonotone(h1: int, h2: int)
    requires h1 <= h2
    ensures ToneRank(HealthColor(h1)) <= ToneRank(HealthColor(h2))
  {
  }
}
