/**
 * The capture-the-flag server script: its persisted settings (flag-pole
 * coordinates and three switches) with their defaults, the property
 * getters and setters over them, and the operator commands, which check
 * their arguments and the lobby state before changing anything.
 */
module CaptureTheFlag {
  import opened Host
  import opened Text
  import opened PyInt
  import opened Settings
  import Loot
  import States

  const SAVE_FILE := "config/capture_the_flag"

  const KEY_FLAG_POLE_BLUE_X := "flag_pole_blue_x"
  const KEY_FLAG_POLE_RED_X := "flag_pole_red_x"
  const KEY_FLAG_POLE_BLUE_Y := "flag_pole_blue_y"
  const KEY_FLAG_POLE_RED_Y := "flag_pole_red_y"
  const KEY_FLAG_POLE_BLUE_Z := "flag_pole_blue_z"
  const KEY_FLAG_POLE_RED_Z := "flag_pole_red_z"
  const KEY_LOOTING_ENABLED := "looting_enabled"
  const KEY_XP_ON_KILL := "xp_on_kill"
  const KEY_XP_ON_WIN := "xp_on_win"

  const XP_ON_SAME_LEVEL := 25.0

  /** How far below the player a new flag pole is placed. */
  const POLE_DEPTH := 50000.0

  datatype Team = Red | Blue

  /** The three settings keys of a team's flag-pole position. */
  function PoleKeys(team: Team): (string, string, string) {
    match team
    case Red => (KEY_FLAG_POLE_RED_X, KEY_FLAG_POLE_RED_Y, KEY_FLAG_POLE_RED_Z)
    case Blue => (KEY_FLAG_POLE_BLUE_X, KEY_FLAG_POLE_BLUE_Y, KEY_FLAG_POLE_BLUE_Z)
  }

  /** The switch settings and their commands. */
  datatype Switch = Looting | XpOnKill | XpOnWin

  function SwitchKey(s: Switch): string {
    match s
    case Looting => KEY_LOOTING_ENABLED
    case XpOnKill => KEY_XP_ON_KILL
    case XpOnWin => KEY_XP_ON_WIN
  }

  /** The nine persisted keys. */
  const COORDINATE_KEYS: set<string> :=
    {KEY_FLAG_POLE_RED_X, KEY_FLAG_POLE_RED_Y, KEY_FLAG_POLE_RED_Z,
     KEY_FLAG_POLE_BLUE_X, KEY_FLAG_POLE_BLUE_Y, KEY_FLAG_POLE_BLUE_Z}
  const SWITCH_KEYS: set<string> := {KEY_LOOTING_ENABLED, KEY_XP_ON_KILL, KEY_XP_ON_WIN}

  /** A stored file whose known keys, where present, hold values of the right kind. */
  predicate WellTyped(settings: map<string, Value>) {
    && (forall k :: k in COORDINATE_KEYS && k in settings ==> settings[k].Real?)
    && (forall k :: k in SWITCH_KEYS && k in settings ==> settings[k].Bool?)
  }

  /** Every known key is present with a value of the right kind. */
  predicate Complete(settings: map<string, Value>) {
    && KEY_FLAG_POLE_RED_X in settings && settings[KEY_FLAG_POLE_RED_X].Real?
    && KEY_FLAG_POLE_RED_Y in settings && settings[KEY_FLAG_POLE_RED_Y].Real?
    && KEY_FLAG_POLE_RED_Z in settings && settings[KEY_FLAG_POLE_RED_Z].Real?
    && KEY_FLAG_POLE_BLUE_X in settings && settings[KEY_FLAG_POLE_BLUE_X].Real?
    && KEY_FLAG_POLE_BLUE_Y in settings && settings[KEY_FLAG_POLE_BLUE_Y].Real?
    && KEY_FLAG_POLE_BLUE_Z in settings && settings[KEY_FLAG_POLE_BLUE_Z].Real?
    && KEY_LOOTING_ENABLED in settings && settings[KEY_LOOTING_ENABLED].Bool?
    && KEY_XP_ON_KILL in settings && settings[KEY_XP_ON_KILL].Bool?
    && KEY_XP_ON_WIN in settings && settings[KEY_XP_ON_WIN].Bool?
  }

  /** The value `__load_settings` writes for each missing key. */
  function Defaults(): map<string, Value> {
    map[
      KEY_FLAG_POLE_RED_X := Real(0.0), KEY_FLAG_POLE_RED_Y := Real(0.0), KEY_FLAG_POLE_RED_Z := Real(0.0),
      KEY_FLAG_POLE_BLUE_X := Real(0.0), KEY_FLAG_POLE_BLUE_Y := Real(0.0), KEY_FLAG_POLE_BLUE_Z := Real(0.0),
      KEY_LOOTING_ENABLED := Bool(true), KEY_XP_ON_KILL := Bool(true), KEY_XP_ON_WIN := Bool(false)
    ]
  }

  /** What `__load_settings` makes of the stored file. */
  predicate LoadedFrom(settings: map<string, Value>, stored: map<string, Value>) {
    Extends(settings, stored, Defaults())
  }

  /** The nine checks, applied to an empty file, write exactly the defaults. */
  lemma ChecksGiveDefaults()
    ensures
      var d := WithDefault(map[], KEY_FLAG_POLE_RED_X, Real(0.0));
      var d := WithDefault(d, KEY_FLAG_POLE_RED_Y, Real(0.0));
      var d := WithDefault(d, KEY_FLAG_POLE_RED_Z, Real(0.0));
      var d := WithDefault(d, KEY_FLAG_POLE_BLUE_X, Real(0.0));
      var d := WithDefault(d, KEY_FLAG_POLE_BLUE_Y, Real(0.0));
      var d := WithDefault(d, KEY_FLAG_POLE_BLUE_Z, Real(0.0));
      var d := WithDefault(d, KEY_LOOTING_ENABLED, Bool(true));
      var d := WithDefault(d, KEY_XP_ON_KILL, Bool(true));
      var d := WithDefault(d, KEY_XP_ON_WIN, Bool(false));
      d == Defaults()
  {
  }

  /** A well-typed stored file loads into complete settings. */
  lemma LoadedComplete(settings: map<string, Value>, stored: map<string, Value>)
    requires LoadedFrom(settings, stored) && WellTyped(stored)
    ensures Complete(settings)
  {
  }

  /**
   * `__load_settings`: each of the nine keys missing from the stored file
   * gets its default; every key already present, and every other key, keeps
   * its stored value.
   */
  method LoadSettings(stored: map<string, Value>) returns (settings: map<string, Value>)
    ensures settings.Keys == stored.Keys + Defaults().Keys
    ensures forall k :: k in stored ==> settings[k] == stored[k]
    ensures forall k :: k in Defaults() && k !in stored ==> settings[k] == Defaults()[k]
  {
    // `written` collects the defaults the checks so far would write to an empty file.
    ghost var written: map<string, Value> := map[];
    settings := stored;
    WithDefaultExtends(settings, stored, written, KEY_FLAG_POLE_RED_X, Real(0.0));
    settings, written := WithDefault(settings, KEY_FLAG_POLE_RED_X, Real(0.0)), WithDefault(written, KEY_FLAG_POLE_RED_X, Real(0.0));
    WithDefaultExtends(settings, stored, written, KEY_FLAG_POLE_RED_Y, Real(0.0));
    settings, written := WithDefault(settings, KEY_FLAG_POLE_RED_Y, Real(0.0)), WithDefault(written, KEY_FLAG_POLE_RED_Y, Real(0.0));
    WithDefaultExtends(settings, stored, written, KEY_FLAG_POLE_RED_Z, Real(0.0));
    settings, written := WithDefault(settings, KEY_FLAG_POLE_RED_Z, Real(0.0)), WithDefault(written, KEY_FLAG_POLE_RED_Z, Real(0.0));
    WithDefaultExtends(settings, stored, written, KEY_FLAG_POLE_BLUE_X, Real(0.0));
    settings, written := WithDefault(settings, KEY_FLAG_POLE_BLUE_X, Real(0.0)), WithDefault(written, KEY_FLAG_POLE_BLUE_X, Real(0.0));
    WithDefaultExtends(settings, stored, written, KEY_FLAG_POLE_BLUE_Y, Real(0.0));
    settings, written := WithDefault(settings, KEY_FLAG_POLE_BLUE_Y, Real(0.0)), WithDefault(written, KEY_FLAG_POLE_BLUE_Y, Real(0.0));
    WithDefaultExtends(settings, stored, written, KEY_FLAG_POLE_BLUE_Z, Real(0.0));
    settings, written := WithDefault(settings, KEY_FLAG_POLE_BLUE_Z, Real(0.0)), WithDefault(written, KEY_FLAG_POLE_BLUE_Z, Real(0.0));
    WithDefaultExtends(settings, stored, written, KEY_LOOTING_ENABLED, Bool(true));
    settings, written := WithDefault(settings, KEY_LOOTING_ENABLED, Bool(true)), WithDefault(written, KEY_LOOTING_ENABLED, Bool(true));
    WithDefaultExtends(settings, stored, written, KEY_XP_ON_KILL, Bool(true));
    settings, written := WithDefault(settings, KEY_XP_ON_KILL, Bool(true)), WithDefault(written, KEY_XP_ON_KILL, Bool(true));
    WithDefaultExtends(settings, stored, written, KEY_XP_ON_WIN, Bool(false));
    settings, written := WithDefault(settings, KEY_XP_ON_WIN, Bool(false)), WithDefault(written, KEY_XP_ON_WIN, Bool(false));
    ChecksGiveDefaults();
  }

  /** The flag-pole position the settings hold for `team`. */
  function PolePos(settings: map<string, Value>, team: Team): Vec3
    requires Complete(settings)
  {
    var (x, y, z) := PoleKeys(team);
    Vec3(settings[x].r, settings[y].r, settings[z].r)
  }

  function Other(team: Team): Team {
    if team == Red then Blue else Red
  }

  /** The settings after the pole-position setter of `team` writes `value`. */
  function WritePole(settings: map<string, Value>, team: Team, value: Vec3): map<string, Value> {
    var (x, y, z) := PoleKeys(team);
    settings[x := Real(value.x)][y := Real(value.y)][z := Real(value.z)]
  }

  /**
   * Writing a pole keeps the settings complete; reading that pole back gives
   * the written position, and the other pole and the switches are unchanged.
   */
  lemma WritePoleReadBack(settings: map<string, Value>, team: Team, value: Vec3)
    requires Complete(settings)
    ensures Complete(WritePole(settings, team, value))
    ensures PolePos(WritePole(settings, team, value), team) == value
    ensures PolePos(WritePole(settings, team, value), Other(team)) == PolePos(settings, Other(team))
    ensures forall s :: WritePole(settings, team, value)[SwitchKey(s)] == settings[SwitchKey(s)]
  {
    var next := WritePole(settings, team, value);
    var (x, y, z) := PoleKeys(team);
    var (ox, oy, oz) := PoleKeys(Other(team));
    assert ox != x && ox != y && ox != z;
    assert oy != x && oy != y && oy != z;
    assert oz != x && oz != y && oz != z;
    assert COORDINATE_KEYS !! SWITCH_KEYS;
  }

  /**
   * Writing a switch keeps the settings complete; reading it back gives the
   * written value, and both poles and the other switches are unchanged.
   */
  lemma WriteSwitchReadBack(settings: map<string, Value>, s: Switch, value: bool)
    requires Complete(settings)
    ensures Complete(settings[SwitchKey(s) := Bool(value)])
    ensures settings[SwitchKey(s) := Bool(value)][SwitchKey(s)].b == value
    ensures forall t :: PolePos(settings[SwitchKey(s) := Bool(value)], t) == PolePos(settings, t)
    ensures forall s' :: s' != s ==> settings[SwitchKey(s) := Bool(value)][SwitchKey(s')] == settings[SwitchKey(s')]
  {
    assert COORDINATE_KEYS !! SWITCH_KEYS;
    assert KEY_LOOTING_ENABLED != KEY_XP_ON_KILL && KEY_LOOTING_ENABLED != KEY_XP_ON_WIN && KEY_XP_ON_KILL != KEY_XP_ON_WIN;
  }

  /** The reply texts of a switch command (`loot`, `xponkill`, `xponwin`). */
  datatype SwitchTexts = SwitchTexts(
    isOn: string, isOff: string, alreadyOn: string, turnedOn: string,
    turnedOff: string, alreadyOff: string, refused: string)

  function Texts(s: Switch): SwitchTexts {
    match s
    case Looting => SwitchTexts(
      "Loot is enabled.", "Loot is disabled.", "Looting is already enabled.",
      "Looting has been enabled.", "Looting has been disabled.", "Looting is already disabled.",
      "Looting can only be changed if no game is running.")
    case XpOnKill => SwitchTexts(
      "XP on kill is enabled.", "XP on kill is disabled.", "XP on kill is already enabled.",
      "XP on kill has been enabled.", "XP on kill has been disabled.", "XP on kill is already disabled.",
      "XP on kill can only be changed if no game is running.")
    case XpOnWin => SwitchTexts(
      "XP on win is enabled.", "XP on win is disabled.", "XP on win is already enabled.",
      "XP on win has been enabled.", "XP on win has been disabled.", "XP on win is already disabled.",
      "XP on win can only be changed if no game is running.")
  }

  /**
   * The decision of a switch command given the current value and whether
   * the lobby is the current state. Without an argument it only reports;
   * with one it refuses outside the lobby; "on"/"off" write only when they
   * change the value; any other argument is rejected.
   */
  function SwitchCommand(t: SwitchTexts, current: bool, inLobby: bool, arg: Option<string>): (r: SwitchOutcome)
    ensures arg.None? ==> r == SwitchOutcome(if current then t.isOn else t.isOff, None)
    ensures arg.Some? && !inLobby ==> r == SwitchOutcome(t.refused, None)
    ensures r.write.Some? <==>
      arg.Some? && inLobby && ((arg.value == "on" && !current) || (arg.value == "off" && current))
    ensures r.write.Some? ==> r.write.value == !current
    ensures r.write.Some? ==> r.reply == (if r.write.value then t.turnedOn else t.turnedOff)
    ensures arg.Some? && inLobby && arg.value == "on" && current ==> r.reply == t.alreadyOn
    ensures arg.Some? && inLobby && arg.value == "off" && !current ==> r.reply == t.alreadyOff
    ensures arg.Some? && inLobby && arg.value != "on" && arg.value != "off" ==>
      r == SwitchOutcome("Unknown prameter: " + arg.value, None)
  {
    match arg
    case None => SwitchOutcome(if current then t.isOn else t.isOff, None)
    case Some(state) =>
      if !inLobby then SwitchOutcome(t.refused, None)
      else if state == "on" then
        if current then SwitchOutcome(t.alreadyOn, None) else SwitchOutcome(t.turnedOn, Some(true))
      else if state == "off" then
        if current then SwitchOutcome(t.turnedOff, Some(false)) else SwitchOutcome(t.alreadyOff, None)
      else SwitchOutcome("Unknown prameter: " + state, None)
  }

  /**
   * In the lobby, "on" and "off" leave the switch at the requested value,
   * and repeating the command changes nothing more and answers "already".
   */
  lemma SwitchCommandSettles(t: SwitchTexts, current: bool, state: string)
    requires state == "on" || state == "off"
    requires t.alreadyOn != t.turnedOn && t.alreadyOff != t.turnedOff
    ensures var r := SwitchCommand(t, current, true, Some(state));
      && After(current, r) == (state == "on")
      && var again := SwitchCommand(t, After(current, r), true, Some(state));
         again.write.None? && again.reply == (if state == "on" then t.alreadyOn else t.alreadyOff)
  {
  }

  /** The reply texts have the distinctness `SwitchCommandSettles` needs. */
  lemma TextsDistinct(s: Switch)
    ensures Texts(s).alreadyOn != Texts(s).turnedOn && Texts(s).alreadyOff != Texts(s).turnedOff
  {
    // "is already ..." is two characters longer than "has been ...".
    match s
    case Looting =>
      assert |Texts(s).alreadyOn| == 27 && |Texts(s).turnedOn| == 25;
      assert |Texts(s).alreadyOff| == 28 && |Texts(s).turnedOff| == 26;
    case XpOnKill =>
      assert |Texts(s).alreadyOn| == 30 && |Texts(s).turnedOn| == 28;
      assert |Texts(s).alreadyOff| == 31 && |Texts(s).turnedOff| == 29;
    case XpOnWin =>
      assert |Texts(s).alreadyOn| == 29 && |Texts(s).turnedOn| == 27;
      assert |Texts(s).alreadyOff| == 30 && |Texts(s).turnedOff| == 28;
  }

  /** What a command that hands on to the game state does instead of replying. */
  datatype Delegation =
    | Reply(reply: string)
    | StartGame(matchMode: string, points: int)
    | Join(player: Player, team: string)

  const MODE_AUTOBALANCE := "autobalance"
  const MODE_CHOOSE := "choose"

  /**
   * The `startgame` command (missing arguments default to "autobalance" and
   * "1"): the lower-cased mode must be autobalance or choose, the point count
   * must parse as an integer, and it must be positive; only then is the call
   * handed to the game state.
   */
  function StartGameCommand(matchMode: Option<string>, pointCount: Option<string>): (r: Delegation)
    ensures var mode := ToLower(if matchMode.Some? then matchMode.value else MODE_AUTOBALANCE);
      var count := if pointCount.Some? then pointCount.value else "1";
      && (r.StartGame? <==>
           (mode == MODE_AUTOBALANCE || mode == MODE_CHOOSE) && ParseInt(count).Some? && ParseInt(count).value > 0)
      && (r.StartGame? ==> r.matchMode == mode && Some(r.points) == ParseInt(count))
      && (mode != MODE_AUTOBALANCE && mode != MODE_CHOOSE ==>
           r == Reply("There is no matchmaking mode named '" + mode + "'."))
      && ((mode == MODE_AUTOBALANCE || mode == MODE_CHOOSE) && ParseInt(count).None? ==>
           r == Reply("Could not parse " + count + "."))
      && ((mode == MODE_AUTOBALANCE || mode == MODE_CHOOSE) && ParseInt(count).Some? && ParseInt(count).value <= 0 ==>
           r == Reply("You need at least on point to win."))
    ensures !r.Join?
  {
    var mode := ToLower(if matchMode.Some? then matchMode.value else MODE_AUTOBALANCE);
    var count := if pointCount.Some? then pointCount.value else "1";
    if mode != MODE_AUTOBALANCE && mode != MODE_CHOOSE then
      Reply("There is no matchmaking mode named '" + mode + "'.")
    else
      match ParseInt(count)
      case None => Reply("Could not parse " + count + ".")
      case Some(p) =>
        if p <= 0 then Reply("You need at least on point to win.")
        else StartGame(mode, p)
  }

  /** Any capitalisation of "autobalance" or "choose" starts a one-point match by default. */
  lemma StartGameDefaults(matchMode: string)
    requires ToLower(matchMode) == MODE_AUTOBALANCE || ToLower(matchMode) == MODE_CHOOSE
    ensures StartGameCommand(Some(matchMode), None) == StartGame(ToLower(matchMode), 1)
  {
    assert Strip("1") == "1";
    assert DigitsValue("1") == 1 by {
      assert "1"[..0] == [];
    }
  }

  /** A positive count written in decimal is accepted with exactly that value. */
  lemma StartGameAcceptsCount(points: int)
    requires points > 0
    ensures StartGameCommand(None, Some(IntToString(points))) == StartGame(MODE_AUTOBALANCE, points)
  {
    ParseIntToString(points);
    assert ToLower(MODE_AUTOBALANCE) == MODE_AUTOBALANCE;
  }

  /**
   * The `join` command up to its hand-over: it needs a player (not the
   * server console) and a team argument.
   */
  function JoinCommand(player: Option<Player>, team: Option<string>): (r: Delegation)
    ensures player.None? ==> r == Reply("This command can't be issued from server command line.")
    ensures player.Some? && team.None? ==> r == Reply("Please choose a team: blue or red")
    ensures r.Join? <==> player.Some? && team.Some?
    ensures r.Join? ==> r.player == player.value && r.team == team.value
    ensures !r.StartGame?
  {
    if player.None? then Reply("This command can't be issued from server command line.")
    else if team.None? then Reply("Please choose a team: blue or red")
    else Join(player.value, team.value)
  }

  /**
   * `__calculate_xp`: 25 XP for a kill at the same level, scaled by the
   * level ratio, and never less than 1. A killer of level 0 divides by zero.
   */
  function CalculateXp(killerLevel: int, killedLevel: int): (xp: int)
    requires killerLevel != 0
    ensures xp >= 1
    ensures XP_ON_SAME_LEVEL * (killedLevel as real / killerLevel as real) < 2.0 ==> xp == 1
    ensures XP_ON_SAME_LEVEL * (killedLevel as real / killerLevel as real) >= 2.0 ==>
      xp as real <= XP_ON_SAME_LEVEL * (killedLevel as real / killerLevel as real) < xp as real + 1.0
  {
    var xp := Trunc(XP_ON_SAME_LEVEL * (killedLevel as real / killerLevel as real));
    if xp > 1 then xp else 1
  }

  /** A kill at `n` times the killer's level gives `n` times the same-level XP. */
  lemma WholeRatioXp(level: int, n: int)
    requires level != 0 && n >= 1
    ensures CalculateXp(level, n * level) == 25 * n
  {
    assert (n * level) as real / level as real == n as real;
  }

  /** The script: its settings, the loot manager, the flags and the game state. */
  class CaptureTheFlagScript {
    const server: Server
    const slot: States.GameSlot
    const lootManager: Loot.LootManager
    var settings: map<string, Value>
    var poleRedPos: Vec3
    var poleBluePos: Vec3
    var flagRedPos: Vec3
    var flagBluePos: Vec3

    /**
     * The settings are complete, the loot manager's switch mirrors the stored
     * one, and the flag poles stand where the settings say.
     */
    ghost predicate Valid()
      reads this, lootManager
    {
      && Complete(settings)
      && lootManager.lootEnabled == settings[KEY_LOOTING_ENABLED].b
      && lootManager.Valid()
      && poleRedPos == PolePos(settings, Red)
      && poleBluePos == PolePos(settings, Blue)
    }

    /**
     * `on_load`: loads and completes the settings, puts poles and flags at
     * the stored positions, creates the loot manager with the stored switch
     * and starts in a fresh lobby.
     */
    constructor (server: Server, stored: map<string, Value>)
      requires WellTyped(stored)
      ensures Valid()
      ensures this.server == server && fresh(lootManager) && fresh(slot)
      ensures LoadedFrom(settings, stored)
      ensures flagRedPos == poleRedPos && flagBluePos == poleBluePos
      ensures lootManager.pending == None
      ensures slot.gameState.PreGame? && fresh(slot.gameState.lobby)
      ensures slot.gameState.lobby.server == server && slot.gameState.lobby.ctf == slot
      ensures slot.gameState.lobby.matchMode == States.AUTOBALANCE
      ensures slot.gameState.lobby.red == [] && slot.gameState.lobby.blue == []
    {
      this.server := server;
      var s := LoadSettings(stored);
      LoadedComplete(s, stored);
      settings := s;
      poleRedPos := PolePos(s, Red);
      flagRedPos := PolePos(s, Red);
      poleBluePos := PolePos(s, Blue);
      flagBluePos := PolePos(s, Blue);
      var manager := new Loot.LootManager();
      manager.lootEnabled := s[KEY_LOOTING_ENABLED].b;
      lootManager := manager;
      var gameSlot := new States.GameSlot(States.Initialising);
      var lobby := new States.PreGameState(server, gameSlot);
      gameSlot.gameState := States.PreGame(lobby);
      slot := gameSlot;
    }

    /** The `flag_pole_pos_red` / `flag_pole_pos_blue` getter. */
    function FlagPolePos(team: Team): Vec3
      reads this, lootManager
      requires Valid()
    {
      PolePos(settings, team)
    }

    /** The `loot_enabled`, `xp_on_kill` and `xp_on_win` getters. */
    function SwitchValue(s: Switch): bool
      reads this, lootManager
      requires Valid()
    {
      settings[SwitchKey(s)].b
    }

    predicate InLobby()
      reads this, slot
    {
      slot.gameState.PreGame?
    }

    /**
     * The flag-pole position setter: writes the three coordinates, moves the
     * pole and saves; reading the position back gives `value`.
     */
    method SetFlagPolePos(team: Team, value: Vec3)
      requires Valid()
      modifies this, server
      ensures Valid()
      ensures FlagPolePos(team) == value
      ensures settings == WritePole(old(settings), team, value)
      ensures FlagPolePos(Other(team)) == old(FlagPolePos(Other(team)))
      ensures forall s :: SwitchValue(s) == old(SwitchValue(s))
      ensures team == Red ==> poleRedPos == value && poleBluePos == old(poleBluePos)
      ensures team == Blue ==> poleBluePos == value && poleRedPos == old(poleRedPos)
      ensures flagRedPos == old(flagRedPos) && flagBluePos == old(flagBluePos)
      ensures server.saves == old(server.saves) + [Save(SAVE_FILE, settings)]
      ensures server.chatLog == old(server.chatLog) && server.hostilityLog == old(server.hostilityLog)
      ensures server.broadcasts == old(server.broadcasts)
      ensures server.entityCount == old(server.entityCount)
      ensures server.defaultHostile == old(server.defaultHostile) && server.defaultHostility == old(server.defaultHostility)
    {
      WritePoleReadBack(settings, team, value);
      settings := WritePole(settings, team, value);
      if team == Red {
        poleRedPos := value;
      } else {
        poleBluePos := value;
      }
      server.saves := server.saves + [Save(SAVE_FILE, settings)];
    }

    /**
     * The switch setters: write the value and save; the looting setter also
     * passes the value to the loot manager. Reading it back gives `value`.
     */
    method SetSwitch(s: Switch, value: bool)
      requires Valid()
      modifies this, server, lootManager
      ensures Valid()
      ensures SwitchValue(s) == value
      ensures settings == old(settings)[SwitchKey(s) := Bool(value)]
      ensures lootManager.lootEnabled == (if s == Looting then value else old(lootManager.lootEnabled))
      ensures lootManager.pending == old(lootManager.pending)
      ensures poleRedPos == old(poleRedPos) && poleBluePos == old(poleBluePos)
      ensures flagRedPos == old(flagRedPos) && flagBluePos == old(flagBluePos)
      ensures server.saves == old(server.saves) + [Save(SAVE_FILE, settings)]
      ensures server.chatLog == old(server.chatLog) && server.hostilityLog == old(server.hostilityLog)
      ensures server.broadcasts == old(server.broadcasts)
      ensures server.entityCount == old(server.entityCount)
      ensures server.defaultHostile == old(server.defaultHostile) && server.defaultHostility == old(server.defaultHostility)
    {
      WriteSwitchReadBack(settings, s, value);
      if s == Looting {
        lootManager.lootEnabled := value;
      }
      settings := settings[SwitchKey(s) := Bool(value)];
      server.saves := server.saves + [Save(SAVE_FILE, settings)];
    }

    /** The lobby branch of `setflagpoler` / `setflagpoleb`: pole and flag both go to `pos`. */
    method MovePole(team: Team, pos: Vec3)
      requires Valid()
      modifies this, server
      ensures Valid()
      ensures FlagPolePos(team) == pos && FlagPolePos(Other(team)) == old(FlagPolePos(Other(team)))
      ensures settings == WritePole(old(settings), team, pos)
      ensures if team == Red then flagRedPos == pos && flagBluePos == old(flagBluePos)
              else flagBluePos == pos && flagRedPos == old(flagRedPos)
      ensures server.saves == old(server.saves) + [Save(SAVE_FILE, settings)]
      ensures server.chatLog == old(server.chatLog) && server.hostilityLog == old(server.hostilityLog)
      ensures server.broadcasts == old(server.broadcasts)
      ensures server.entityCount == old(server.entityCount)
      ensures server.defaultHostile == old(server.defaultHostile) && server.defaultHostility == old(server.defaultHostility)
    {
      SetFlagPolePos(team, pos);
      if team == Red {
        flagRedPos := pos;
      } else {
        flagBluePos := pos;
      }
    }

    /**
     * `setflagpoler` / `setflagpoleb`: only a player, and only in the lobby,
     * may move a pole; pole and flag go to the player's position lowered by
     * 50000 on z.
     */
    method SetFlagPoleCommand(team: Team, player: Option<Player>) returns (reply: string)
      requires Valid()
      modifies this, server
      ensures Valid()
      ensures player.None? ==> reply == (if team == Red then "The command 'setflagpoler' has to be run by a player."
                                         else "The command 'setflagpoleb' has to be run by a player.")
      ensures player.Some? && !old(InLobby()) ==> reply == "Flag poles can only be set when no match is running."
      ensures player.Some? && old(InLobby()) ==>
        && var p := player.value.position;
           var pos := Vec3(p.x, p.y, p.z - POLE_DEPTH);
        && FlagPolePos(team) == pos
        && (if team == Red then flagRedPos == pos && flagBluePos == old(flagBluePos)
            else flagBluePos == pos && flagRedPos == old(flagRedPos))
        && settings == WritePole(old(settings), team, pos)
        && server.saves == old(server.saves) + [Save(SAVE_FILE, settings)]
        && reply == (if team == Red then "Successful set red flag pole position."
                     else "Successful set blue flag pole position.")
      ensures player.None? || !old(InLobby()) ==>
        && settings == old(settings) && server.saves == old(server.saves)
        && flagRedPos == old(flagRedPos) && flagBluePos == old(flagBluePos)
      ensures FlagPolePos(Other(team)) == old(FlagPolePos(Other(team)))
      ensures server.chatLog == old(server.chatLog) && server.hostilityLog == old(server.hostilityLog)
      ensures server.broadcasts == old(server.broadcasts)
      ensures server.entityCount == old(server.entityCount)
      ensures server.defaultHostile == old(server.defaultHostile) && server.defaultHostility == old(server.defaultHostility)
    {
      if player.None? {
        if team == Red {
          reply := "The command 'setflagpoler' has to be run by a player.";
        } else {
          reply := "The command 'setflagpoleb' has to be run by a player.";
        }
      } else if InLobby() {
        var p := player.value.position;
        MovePole(team, Vec3(p.x, p.y, p.z - POLE_DEPTH));
        if team == Red {
          reply := "Successful set red flag pole position.";
        } else {
          reply := "Successful set blue flag pole position.";
        }
      } else {
        reply := "Flag poles can only be set when no match is running.";
      }
    }

    /** `loot`, `xponkill`, `xponwin`: the decision of `SwitchCommand`, applied through the setter. */
    method RunSwitchCommand(s: Switch, arg: Option<string>) returns (reply: string)
      requires Valid()
      modifies this, server, lootManager
      ensures Valid()
      ensures var r := SwitchCommand(Texts(s), old(SwitchValue(s)), old(InLobby()), arg);
        && reply == r.reply
        && SwitchValue(s) == After(old(SwitchValue(s)), r)
        && (r.write.None? ==> settings == old(settings) && server.saves == old(server.saves))
        && (r.write.Some? ==> settings == old(settings)[SwitchKey(s) := Bool(r.write.value)]
                              && server.saves == old(server.saves) + [Save(SAVE_FILE, settings)])
      ensures lootManager.pending == old(lootManager.pending)
      ensures poleRedPos == old(poleRedPos) && poleBluePos == old(poleBluePos)
      ensures flagRedPos == old(flagRedPos) && flagBluePos == old(flagBluePos)
      ensures server.chatLog == old(server.chatLog) && server.hostilityLog == old(server.hostilityLog)
      ensures server.broadcasts == old(server.broadcasts)
      ensures server.entityCount == old(server.entityCount)
      ensures server.defaultHostile == old(server.defaultHostile) && server.defaultHostility == old(server.defaultHostility)
    {
      var r := SwitchCommand(Texts(s), SwitchValue(s), InLobby(), arg);
      ApplySwitch(s, r.write);
      reply := r.reply;
    }

    /** The write a switch command decided on, if any, through the setter. */
    method ApplySwitch(s: Switch, write: Option<bool>)
      requires Valid()
      modifies this, server, lootManager
      ensures Valid()
      ensures SwitchValue(s) == if write.Some? then write.value else old(SwitchValue(s))
      ensures write.None? ==> settings == old(settings) && server.saves == old(server.saves)
      ensures write.Some? ==> settings == old(settings)[SwitchKey(s) := Bool(write.value)]
                              && server.saves == old(server.saves) + [Save(SAVE_FILE, settings)]
      ensures lootManager.pending == old(lootManager.pending)
      ensures poleRedPos == old(poleRedPos) && poleBluePos == old(poleBluePos)
      ensures flagRedPos == old(flagRedPos) && flagBluePos == old(flagBluePos)
      ensures server.chatLog == old(server.chatLog) && server.hostilityLog == old(server.hostilityLog)
      ensures server.broadcasts == old(server.broadcasts)
      ensures server.entityCount == old(server.entityCount)
      ensures server.defaultHostile == old(server.defaultHostile) && server.defaultHostility == old(server.defaultHostility)
    {
      if write.Some? {
        SetSwitch(s, write.value);
      }
    }

    /**
     * `abortgame`: whatever the state, a fresh lobby replaces it, everyone is
     * told, and the operator gets the confirmation.
     */
    method AbortGame() returns (reply: string)
      modifies slot, server
      ensures reply == "Game successfully aborted."
      ensures slot.gameState.PreGame? && fresh(slot.gameState.lobby)
      ensures slot.gameState.lobby.server == server && slot.gameState.lobby.ctf == slot
      ensures slot.gameState.lobby.matchMode == States.AUTOBALANCE
      ensures slot.gameState.lobby.red == [] && slot.gameState.lobby.blue == []
      ensures server.broadcasts == old(server.broadcasts) + ["Game aborted by administrator."]
      ensures server.chatLog == old(server.chatLog) && server.hostilityLog == old(server.hostilityLog)
      ensures server.saves == old(server.saves)
      ensures server.entityCount == old(server.entityCount)
      ensures server.defaultHostile == old(server.defaultHostile) && server.defaultHostility == old(server.defaultHostility)
    {
      var lobby := new States.PreGameState(server, slot);
      slot.gameState := States.PreGame(lobby);
      server.broadcasts := server.broadcasts + ["Game aborted by administrator."];
      reply := "Game successfully aborted.";
    }
  }
}
