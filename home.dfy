/** The home page (src/app/page.tsx): a loading screen, a menu, and an
    AR view with a magazine of ammunition, a selected target and a game
    clock. Alerts, the camera, geolocation and the hit roll (which only
    decides which alert is shown) are not state and are left out. */
module HomePage {

  import opened Common

  datatype Kind = Human | Enemy

  datatype Target = Target(id: string, kind: Kind, name: string, distance: real, x: real, y: real, health: int)

  datatype GpsStatus = GpsConnecting | GpsConnected | GpsError

  datatype GameState = GameState(
    isLoading: bool, showMenu: bool, showGame: bool,
    ammo: int, maxAmmo: int, accuracy: int,
    selectedTarget: Option<Target>, targets: seq<Target>, gameTime: int,
    gpsStatus: GpsStatus)

  /** The state the page starts in. */
  function Initial(): (s: GameState)
    ensures s.isLoading && !s.showMenu && !s.showGame
    ensures s.ammo == s.maxAmmo == 30 && s.gameTime == 300 && s.selectedTarget.None?
  {
    GameState(true, false, false, 30, 30, 85, None, [], 300, GpsConnecting)
  }

  /** The two-second loading timer: the menu appears. */
  function LoadingDone(s: GameState): (r: GameState)
    ensures !r.isLoading && r.showMenu
    ensures r.(isLoading := s.isLoading, showMenu := s.showMenu) == s
  {
    s.(isLoading := false, showMenu := true)
  }

  /** `handleStartGame`: the menu gives way to the game view. */
  function StartGame(s: GameState): (r: GameState)
    ensures !r.showMenu && r.showGame
    ensures r.(showMenu := s.showMenu, showGame := s.showGame) == s
  {
    s.(showMenu := false, showGame := true)
  }

  /** `goBack`: the game view gives way to the menu. */
  function GoBack(s: GameState): (r: GameState)
    ensures r.showMenu && !r.showGame
    ensures r.(showMenu := s.showMenu, showGame := s.showGame) == s
  {
    s.(showGame := false, showMenu := true)
  }

  /** `selectTarget`. */
  function SelectTarget(s: GameState, t: Target): (r: GameState)
    ensures r.selectedTarget == Some(t) && r.(selectedTarget := s.selectedTarget) == s
  {
    s.(selectedTarget := Some(t))
  }

  // ---------------------------------------------------------------------
  // Weapon

  /** `fireWeapon`: an empty magazine or no selected target leaves the state
      as it is; otherwise one round is spent. */
  function Fire(s: GameState): GameState {
    if s.ammo <= 0 then s
    else if s.selectedTarget.Some? then s.(ammo := s.ammo - 1)
    else s
  }

  /** `reloadWeapon`: a full magazine. */
  function Reload(s: GameState): (r: GameState)
    ensures r.ammo == s.maxAmmo && r.(ammo := s.ammo) == s
  {
    s.(ammo := s.maxAmmo)
  }

  /** A magazine holds between 0 and `maxAmmo` rounds. */
  ghost predicate Magazine(s: GameState) {
    0 <= s.ammo <= s.maxAmmo
  }

  /** Firing spends exactly one round when there is one and a target is
      selected, and none otherwise; nothing but the ammunition changes, so a
      sound magazine stays sound, and so does a reload. */
  lemma FireSpec(s: GameState)
    ensures var r := Fire(s);
      r.(ammo := s.ammo) == s
      && (s.ammo > 0 && s.selectedTarget.Some? ==> r.ammo == s.ammo - 1)
      && (s.ammo <= 0 || s.selectedTarget.None? ==> r == s)
      && (Magazine(s) ==> Magazine(r))
      && (s.maxAmmo >= 0 ==> Magazine(Reload(s)))
  {
  }

  function FireTimes(s: GameState, n: nat): GameState
    decreases n
  {
    if n == 0 then s else FireTimes(Fire(s), n - 1)
  }

  /** With a target selected, `n` pulls of the trigger leave
      `max(0, ammo - n)` rounds: the count never goes negative. */
  lemma {:induction false} FireRepeatedly(s: GameState, n: nat)
    requires s.selectedTarget.Some? && s.ammo >= 0
    ensures FireTimes(s, n).ammo == if s.ammo - n > 0 then s.ammo - n else 0
    ensures FireTimes(s, n).(ammo := s.ammo) == s
    decreases n
  {
    if n > 0 {
      FireRepeatedly(Fire(s), n - 1);
    }
  }

  // ---------------------------------------------------------------------
  // Game clock

  /** One tick of `startGameTimer`: at zero or below the view returns to the
      menu (and the interval stops); otherwise one second is taken off. */
  function Tick(s: GameState): GameState {
    if s.gameTime <= 0 then s.(showGame := false, showMenu := true)
    else s.(gameTime := s.gameTime - 1)
  }

  function Ticks(s: GameState, n: nat): GameState
    decreases n
  {
    if n == 0 then s else Ticks(Tick(s), n - 1)
  }

  /** A game started with `t >= 0` seconds counts down to zero over `t`
      ticks while still in the game view, and the next tick returns to the
      menu. */
  lemma {:induction false} ClockEndsGame(s: GameState, k: nat)
    requires s.gameTime >= 0 && s.showGame && !s.showMenu && k <= s.gameTime + 1
    ensures var r := Ticks(s, k);
      (k <= s.gameTime ==> r == s.(gameTime := s.gameTime - k))
      && (k == s.gameTime + 1 ==> r == s.(gameTime := 0, showGame := false, showMenu := true))
    decreases k
  {
    if k > 0 {
      if s.gameTime == 0 {
        assert Ticks(Tick(s), 0) == Tick(s);
      } else {
        ClockEndsGame(Tick(s), k - 1);
      }
    }
  }
}
