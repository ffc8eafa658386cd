/** The lobby page (src/app/lobby/page.tsx): the player stored by the
    login page is read back with defaults for missing fields, the players
    are shown per team, and the game can start once both teams are
    represented. `localStorage`, `JSON.parse`, the random id and the clock
    are inputs. */
module LobbyPage {

  import opened Common

  /** The stored `joinedAt`, or the moment the lobby opened. */
  datatype JoinedAt = Stored(text: string) | OpenedAt(now: int)

  datatype Player = Player(id: string, nama: string, tim: string, joinedAt: JoinedAt)

  datatype Status = Waiting | Starting | Playing | Finished

  datatype LobbyState = LobbyState(status: Status, timeLeft: int, players: seq<Player>, gameMaster: bool)

  /** The parsed object: each field absent or a string. */
  datatype Raw = Raw(id: Option<string>, nama: Option<string>, tim: Option<string>, joinedAt: Option<string>)

  /** What `localStorage.getItem('playerData')` and `JSON.parse` give. */
  datatype Storage = Missing | Unparseable | Parsed(raw: Raw)

  const InitialLobby := LobbyState(Waiting, 300, [], false)

  /** `a || b` on an optional string: an absent or empty value falls back. */
  function OrElse(v: Option<string>, fallback: string): (r: string)
    ensures v.Some? && v.value != "" ==> r == v.value
    ensures v.None? || v.value == "" ==> r == fallback
  {
    if v.Some? && v.value != "" then v.value else fallback
  }

  /** The player built from the parsed object. */
  function Normalise(raw: Raw, randomId: string, now: int): Player {
    Player(OrElse(raw.id, randomId), OrElse(raw.nama, "Unknown Player"), OrElse(raw.tim, "merah"),
           if raw.joinedAt.Some? && raw.joinedAt.value != "" then Stored(raw.joinedAt.value) else OpenedAt(now))
  }

  /** The player used when the stored text does not parse. */
  function Fallback(randomId: string, now: int): Player {
    Player(randomId, "Player", "merah", OpenedAt(now))
  }

  /** The effect that runs when the lobby opens. */
  function Enter(s: LobbyState, stored: Storage, randomId: string, now: int): LobbyState {
    match stored
    case Missing => s
    case Unparseable => s.(players := [Fallback(randomId, now)])
    case Parsed(raw) => s.(players := [Normalise(raw, randomId, now)])
  }

  /** Nothing stored leaves the lobby empty; otherwise it holds exactly one
      player whose name is never empty and whose team is merah unless a
      non-empty team was stored; an unreadable record gives `Player` of
      merah, and a missing name `Unknown Player`. */
  lemma EnterSpec(s: LobbyState, stored: Storage, randomId: string, now: int)
    ensures var r := Enter(s, stored, randomId, now);
      r.(players := s.players) == s
      && (stored.Missing? ==> r == s)
      && (!stored.Missing? ==> |r.players| == 1 && r.players[0].nama != "" && r.players[0].tim != "")
      && (stored.Unparseable? ==> r.players[0].nama == "Player" && r.players[0].tim == "merah" && r.players[0].id == randomId)
      && (stored.Parsed? && (stored.raw.nama.None? || stored.raw.nama.value == "") ==> r.players[0].nama == "Unknown Player")
      && (stored.Parsed? && (stored.raw.tim.None? || stored.raw.tim.value == "") ==> r.players[0].tim == "merah")
      && (stored.Parsed? && stored.raw.tim.Some? && stored.raw.tim.value != "" ==> r.players[0].tim == stored.raw.tim.value)
  {
  }

  // ---------------------------------------------------------------------
  // Teams

  function OnTeam(tim: string): Player -> bool {
    (p: Player) => p.tim == tim
  }

  /** `canStartGame`. */
  predicate CanStart(ps: seq<Player>) {
    |Filter(ps, OnTeam("merah"))| >= 1 && |Filter(ps, OnTeam("putih"))| >= 1
  }

  /** The game can start exactly when some player is on merah and some
      player on putih. */
  lemma CanStartSpec(ps: seq<Player>)
    ensures CanStart(ps) <==>
      (exists i :: 0 <= i < |ps| && ps[i].tim == "merah") && (exists j :: 0 <= j < |ps| && ps[j].tim == "putih")
  {
    forall tim: string ensures |Filter(ps, OnTeam(tim))| >= 1 <==> exists i :: 0 <= i < |ps| && ps[i].tim == tim {
      var f := Filter(ps, OnTeam(tim));
      if |f| >= 1 {
        assert f[0] in f;
        FilterMembership(ps, OnTeam(tim), f[0]);
      }
      if i :| 0 <= i < |ps| && ps[i].tim == tim {
        FilterMembership(ps, OnTeam(tim), ps[i]);
      }
    }
  }

  /** When every stored team is `merah` or `putih`, the two team lists
      split the players; a player stored with any other team shows in
      neither. */
  lemma {:induction false} TeamsSplit(ps: seq<Player>)
    requires forall i :: 0 <= i < |ps| ==> ps[i].tim == "merah" || ps[i].tim == "putih"
    ensures |Filter(ps, OnTeam("merah"))| + |Filter(ps, OnTeam("putih"))| == |ps|
  {
    if ps != [] {
      assert "merah" != "putih" by {
        assert "merah"[0] != "putih"[0];
      }
      TeamsSplit(ps[1..]);
    }
  }

  /** The lobby only ever holds the one player it read back, so the start
      condition, which needs a player on each team, never holds there. */
  lemma EnteredLobbyCannotStart(stored: Storage, randomId: string, now: int)
    ensures !CanStart(Enter(InitialLobby, stored, randomId, now).players)
  {
    var ps := Enter(InitialLobby, stored, randomId, now).players;
    CanStartSpec(ps);
  }

  /** `handleStartGame`: the lobby is starting (the redirect three seconds
      later leaves the page). */
  function StartGame(s: LobbyState): (r: LobbyState)
    ensures r.status == Starting && r.(status := s.status) == s
  {
    s.(status := Starting)
  }
}
