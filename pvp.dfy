/**
 * The advanced PVP script: three on/off settings (PVP itself, kill
 * notifications, XP for kills) and the display mode hostile players get,
 * persisted in one dictionary. Changing PVP or the display mode re-applies
 * both to every entity and to the entity manager's defaults.
 */
module AdvancedPvp {
  import opened Host
  import opened Text
  import opened PyInt
  import opened Settings

  const SAVE_FILE := "advanced_pvp"

  const KEY_PVP_ENABLED := "pvp_enabled"
  const KEY_NOTIFY_ON_KILL := "notify_on_kill"
  const KEY_GAIN_XP := "gain_xp"
  const KEY_PVP_DISPLAY := "pvp_display"

  /** The three on/off settings. */
  datatype Switch = Pvp | NotifyOnKill | GainXp

  function SwitchKey(s: Switch): string {
    match s
    case Pvp => KEY_PVP_ENABLED
    case NotifyOnKill => KEY_NOTIFY_ON_KILL
    case GainXp => KEY_GAIN_XP
  }

  /** The value `on_load` writes for each missing key. */
  function Defaults(): map<string, Value> {
    map[KEY_PVP_ENABLED := Bool(true), KEY_NOTIFY_ON_KILL := Bool(false),
        KEY_GAIN_XP := Bool(true), KEY_PVP_DISPLAY := Int(HOSTILE)]
  }

  /** A stored file whose known keys, where present, hold values of the right kind. */
  predicate WellTyped(settings: map<string, Value>) {
    && (KEY_PVP_ENABLED in settings ==> settings[KEY_PVP_ENABLED].Bool?)
    && (KEY_NOTIFY_ON_KILL in settings ==> settings[KEY_NOTIFY_ON_KILL].Bool?)
    && (KEY_GAIN_XP in settings ==> settings[KEY_GAIN_XP].Bool?)
    && (KEY_PVP_DISPLAY in settings ==> settings[KEY_PVP_DISPLAY].Int?)
  }

  /** Every known key is present with a value of the right kind. */
  predicate Complete(settings: map<string, Value>) {
    && WellTyped(settings)
    && KEY_PVP_ENABLED in settings && KEY_NOTIFY_ON_KILL in settings
    && KEY_GAIN_XP in settings && KEY_PVP_DISPLAY in settings
  }

  /** The four checks, applied to an empty file, write exactly the defaults. */
  lemma ChecksGiveDefaults()
    ensures
      var d := WithDefault(map[], KEY_PVP_ENABLED, Bool(true));
      var d := WithDefault(d, KEY_NOTIFY_ON_KILL, Bool(false));
      var d := WithDefault(d, KEY_GAIN_XP, Bool(true));
      var d := WithDefault(d, KEY_PVP_DISPLAY, Int(HOSTILE));
      d == Defaults()
  {
  }

  /** A well-typed stored file loads into complete settings. */
  lemma LoadedComplete(settings: map<string, Value>, stored: map<string, Value>)
    requires Extends(settings, stored, Defaults()) && WellTyped(stored)
    ensures Complete(settings)
  {
  }

  /**
   * The settings part of `on_load`: each of the four keys missing from the
   * stored file gets its default; every key present keeps its value.
   */
  method LoadSettings(stored: map<string, Value>) returns (settings: map<string, Value>)
    ensures settings.Keys == stored.Keys + Defaults().Keys
    ensures forall k :: k in stored ==> settings[k] == stored[k]
    ensures forall k :: k in Defaults() && k !in stored ==> settings[k] == Defaults()[k]
  {
    // `written` collects the defaults the checks so far would write to an empty file.
    ghost var written: map<string, Value> := map[];
    settings := stored;
    WithDefaultExtends(settings, stored, written, KEY_PVP_ENABLED, Bool(true));
    settings, written := WithDefault(settings, KEY_PVP_ENABLED, Bool(true)), WithDefault(written, KEY_PVP_ENABLED, Bool(true));
    WithDefaultExtends(settings, stored, written, KEY_NOTIFY_ON_KILL, Bool(false));
    settings, written := WithDefault(settings, KEY_NOTIFY_ON_KILL, Bool(false)), WithDefault(written, KEY_NOTIFY_ON_KILL, Bool(false));
    WithDefaultExtends(settings, stored, written, KEY_GAIN_XP, Bool(true));
    settings, written := WithDefault(settings, KEY_GAIN_XP, Bool(true)), WithDefault(written, KEY_GAIN_XP, Bool(true));
    WithDefaultExtends(settings, stored, written, KEY_PVP_DISPLAY, Int(HOSTILE));
    settings, written := WithDefault(settings, KEY_PVP_DISPLAY, Int(HOSTILE)), WithDefault(written, KEY_PVP_DISPLAY, Int(HOSTILE));
    ChecksGiveDefaults();
  }

  /** The command families of an on/off setting. */
  datatype SwitchCommand = Query | Enable | Disable | Toggle

  /** The reply texts of one setting's commands. */
  datatype SwitchTexts = SwitchTexts(
    isOn: string, isOff: string, alreadyOn: string, turnedOn: string, alreadyOff: string, turnedOff: string)

  function Texts(s: Switch): SwitchTexts {
    match s
    case Pvp => SwitchTexts(
      "PVP mode is active.", "PVP mode is not active.",
      "PVP is already enabled.", "PVP has been enabled.",
      "PVP is already disabled.", "PVP has been disabled.")
    case NotifyOnKill => SwitchTexts(
      "Kills are notified.", "Kills are not notified.",
      "Kills are already notified.", "Kills are now notified.",
      "Kills are already not notified.", "Kills are no longer notified.")
    case GainXp => SwitchTexts(
      "Players gain xp on player kills.", "Players don't gain xp on player kills.",
      "Players already gain xp on player kills.", "Players will now gain xp on player kills.",
      "Players already don't gain xp on player kills.", "Players will no longer gain xp on player kills.")
  }

  /**
   * The decision of `pvp` / `enablepvp` / `disablepvp` / `togglepvp` and of
   * the notify-on-kill and gain-XP families: the query only reports, enable
   * and disable write only when they change the value, and toggle hands on
   * to whichever of the two changes it.
   */
  function Decide(t: SwitchTexts, current: bool, command: SwitchCommand): (r: SwitchOutcome)
    ensures command == Query ==> r == SwitchOutcome(if current then t.isOn else t.isOff, None)
    ensures command == Enable ==>
      r == if current then SwitchOutcome(t.alreadyOn, None) else SwitchOutcome(t.turnedOn, Some(true))
    ensures command == Disable ==>
      r == if current then SwitchOutcome(t.turnedOff, Some(false)) else SwitchOutcome(t.alreadyOff, None)
    ensures command == Toggle ==>
      r == if current then SwitchOutcome(t.turnedOff, Some(false)) else SwitchOutcome(t.turnedOn, Some(true))
    ensures r.write.Some? ==> r.write.value != current
    decreases command == Toggle
  {
    match command
    case Query => SwitchOutcome(if current then t.isOn else t.isOff, None)
    case Enable =>
      if current then SwitchOutcome(t.alreadyOn, None) else SwitchOutcome(t.turnedOn, Some(true))
    case Disable =>
      if current then SwitchOutcome(t.turnedOff, Some(false)) else SwitchOutcome(t.alreadyOff, None)
    case Toggle =>
      if current then Decide(t, current, Disable) else Decide(t, current, Enable)
  }

  /** Enable leaves the setting on, disable leaves it off, whatever it was. */
  lemma EnableDisableSettle(t: SwitchTexts, current: bool)
    ensures After(current, Decide(t, current, Enable))
    ensures !After(current, Decide(t, current, Disable))
    ensures Decide(t, After(current, Decide(t, current, Enable)), Enable).write.None?
    ensures Decide(t, After(current, Decide(t, current, Disable)), Disable).write.None?
  {
  }

  /** Toggling flips the setting, and toggling twice restores it. */
  lemma ToggleTwice(t: SwitchTexts, current: bool)
    ensures After(current, Decide(t, current, Toggle)) == !current
    ensures var once := After(current, Decide(t, current, Toggle));
      After(once, Decide(t, once, Toggle)) == current
  {
  }

  /** The display-mode names `setpvpdisplaymode` accepts and the codes they stand for. */
  function ModeCode(name: string): (code: Option<int>)
    ensures code.Some? ==> code.value in {FRIENDLY_PLAYER, HOSTILE, FRIENDLY}
  {
    if name == "friendlyplayer" then Some(FRIENDLY_PLAYER)
    else if name == "friendly" then Some(FRIENDLY)
    else if name == "hostile" then Some(HOSTILE)
    else None
  }

  /** The setting name `pvpdisplaymode` reports for a code. */
  function ModeName(code: int): Option<string> {
    if code == FRIENDLY_PLAYER then Some("friendlyplayer")
    else if code == FRIENDLY then Some("friendly")
    else if code == HOSTILE then Some("hostile")
    else None
  }

  /** The two tables are inverse to each other, in both directions. */
  lemma ModeCodeName(name: string, code: int)
    ensures ModeCode(name) == Some(code) <==> ModeName(code) == Some(name)
  {
  }

  /** How `pvpdisplaymode` describes a known code, before naming the setting. */
  function Appearance(code: int): string {
    if code == FRIENDLY_PLAYER then "In pvp mode, players are displayed as friendly entities and are shown on the map"
    else if code == FRIENDLY then "In pvp mode, players are displayed as friendly entities"
    else "In pvp mode, players are displayed as hostile entities"
  }

  /** The reply of `pvpdisplaymode` for the stored code. */
  function Describe(code: int): string {
    match ModeName(code)
    case Some(name) => Appearance(code) + " (setting: " + name + ")."
    case None => "Unknown setting, value=" + IntToString(code)
  }

  /**
   * Set-then-query: after `setpvpdisplaymode name` stores the code of an
   * accepted name, `pvpdisplaymode` reports that same name; the description
   * of any code outside the table is the unknown-setting message.
   */
  lemma DescribeAfterSet(name: string, code: int)
    ensures ModeCode(name) == Some(code) ==> Describe(code) == Appearance(code) + " (setting: " + name + ")."
    ensures ModeName(code).None? ==> Describe(code) == "Unknown setting, value=" + IntToString(code)
  {
    ModeCodeName(name, code);
  }

  /** `DescribeAfterSet` for every accepted name of one code. */
  lemma DescribeNames(code: int)
    ensures forall name :: ModeCode(name) == Some(code) ==> Describe(code) == Appearance(code) + " (setting: " + name + ")."
    ensures ModeName(code).None? ==> Describe(code) == "Unknown setting, value=" + IntToString(code)
  {
    forall name | ModeCode(name) == Some(code)
      ensures Describe(code) == Appearance(code) + " (setting: " + name + ")."
    {
      DescribeAfterSet(name, code);
    }
  }

  /** The reply of `setpvpdisplaymode` for an accepted name. */
  function SetReply(code: int): string {
    if code == FRIENDLY_PLAYER then "In pvp mode, players are now displayed as friendly entities and are shown on the map."
    else if code == FRIENDLY then "In pvp mode, players are now displayed as friendly entities."
    else "In pvp mode, players are now displayed as hostile entities."
  }

  /**
   * `calculate_xp`: 10 XP for a kill at the same level, scaled by the level
   * ratio, and never less than 1. A killer of level 0 divides by zero.
   */
  function CalculateXp(killerLevel: int, killedLevel: int): (xp: int)
    requires killerLevel != 0
    ensures xp >= 1
    ensures 10.0 * killedLevel as real / killerLevel as real < 2.0 ==> xp == 1
    ensures 10.0 * killedLevel as real / killerLevel as real >= 2.0 ==>
      xp as real <= 10.0 * killedLevel as real / killerLevel as real < xp as real + 1.0
  {
    var xp := Trunc(10.0 * killedLevel as real / killerLevel as real);
    if xp > 1 then xp else 1
  }

  /** A kill at `n` times the killer's level gives `n` times the same-level XP. */
  lemma WholeRatioXp(level: int, n: int)
    requires level != 0 && n >= 1
    ensures CalculateXp(level, n * level) == 10 * n
  {
    assert 10.0 * (n * level) as real == (10 * n) as real * level as real;
    assert 10.0 * (n * level) as real / level as real == (10 * n) as real;
  }

  /** The script: its settings and the server whose entity manager it drives. */
  class PvpScript {
    const server: Server
    var settings: map<string, Value>

    /** The settings are complete and the entity manager's defaults follow them. */
    ghost predicate Valid()
      reads this, server
    {
      && Complete(settings)
      && server.defaultHostile == settings[KEY_PVP_ENABLED].b
      && server.defaultHostility == settings[KEY_PVP_DISPLAY].i
    }

    /**
     * `on_load`: completes the stored settings and hands the PVP switch and
     * the display mode to the entity manager as its defaults.
     */
    constructor (server: Server, stored: map<string, Value>)
      requires WellTyped(stored)
      modifies server
      ensures Valid()
      ensures this.server == server
      ensures Extends(settings, stored, Defaults())
      ensures server.hostilityLog == old(server.hostilityLog) && server.saves == old(server.saves)
      ensures server.chatLog == old(server.chatLog) && server.broadcasts == old(server.broadcasts)
      ensures server.entityCount == old(server.entityCount)
    {
      this.server := server;
      var s := LoadSettings(stored);
      LoadedComplete(s, stored);
      settings := s;
      new;
      server.defaultHostile := settings[KEY_PVP_ENABLED].b;
      server.defaultHostility := settings[KEY_PVP_DISPLAY].i;
    }

    /** The `pvp_enabled`, `notify_on_kill` and `gain_xp` getters. */
    function Enabled(s: Switch): bool
      reads this, server
      requires Valid()
    {
      settings[SwitchKey(s)].b
    }

    /** The `pvp_display_mode` getter. */
    function DisplayMode(): int
      reads this, server
      requires Valid()
    {
      settings[KEY_PVP_DISPLAY].i
    }

    /** `get_mode`: the game mode name the server advertises. */
    function GetMode(): (mode: string)
      reads this, server
      requires Valid()
      ensures mode == "pvp" <==> Enabled(Pvp)
      ensures !Enabled(Pvp) ==> mode == "default"
    {
      if settings[KEY_PVP_ENABLED].b then "pvp" else "default"
    }

    /**
     * `update_hostilities`: sets every entity's hostility from the PVP switch
     * and display mode, and makes both the entity manager's defaults.
     */
    method UpdateHostilities()
      requires Complete(settings)
      modifies server
      ensures Valid()
      ensures server.hostilityLog == old(server.hostilityLog) + [SetAll(settings[KEY_PVP_ENABLED].b, settings[KEY_PVP_DISPLAY].i)]
      ensures server.saves == old(server.saves) && server.chatLog == old(server.chatLog)
      ensures server.broadcasts == old(server.broadcasts) && server.entityCount == old(server.entityCount)
    {
      var pvp := settings[KEY_PVP_ENABLED].b;
      var mode := settings[KEY_PVP_DISPLAY].i;
      server.hostilityLog := server.hostilityLog + [SetAll(pvp, mode)];
      server.defaultHostile := pvp;
      server.defaultHostility := mode;
    }

    /**
     * The on/off setters: write and save; the PVP setter then re-applies the
     * hostilities. Reading the setting back gives `value`.
     */
    method SetSwitch(s: Switch, value: bool)
      requires Valid()
      modifies this, server
      ensures Valid()
      ensures Enabled(s) == value
      ensures settings == old(settings)[SwitchKey(s) := Bool(value)]
      ensures DisplayMode() == old(DisplayMode())
      ensures server.saves == old(server.saves) + [Save(SAVE_FILE, settings)]
      ensures server.hostilityLog == old(server.hostilityLog) + (if s == Pvp then [SetAll(value, DisplayMode())] else [])
      ensures server.chatLog == old(server.chatLog) && server.broadcasts == old(server.broadcasts)
      ensures server.entityCount == old(server.entityCount)
    {
      settings := settings[SwitchKey(s) := Bool(value)];
      server.saves := server.saves + [Save(SAVE_FILE, settings)];
      if s == Pvp {
        UpdateHostilities();
      }
    }

    /**
     * The `pvp_display_mode` setter: write, save and re-apply the
     * hostilities. Reading the mode back gives `display`.
     */
    method SetDisplayMode(display: int)
      requires Valid()
      modifies this, server
      ensures Valid()
      ensures DisplayMode() == display
      ensures settings == old(settings)[KEY_PVP_DISPLAY := Int(display)]
      ensures forall s: Switch :: Enabled(s) == old(Enabled(s))
      ensures server.saves == old(server.saves) + [Save(SAVE_FILE, settings)]
      ensures server.hostilityLog == old(server.hostilityLog) + [SetAll(Enabled(Pvp), display)]
      ensures server.chatLog == old(server.chatLog) && server.broadcasts == old(server.broadcasts)
      ensures server.entityCount == old(server.entityCount)
    {
      settings := settings[KEY_PVP_DISPLAY := Int(display)];
      server.saves := server.saves + [Save(SAVE_FILE, settings)];
      UpdateHostilities();
    }

    /** One command of an on/off family: the decision of `Decide`, applied through the setter. */
    method RunSwitchCommand(s: Switch, command: SwitchCommand) returns (reply: string)
      requires Valid()
      modifies this, server
      ensures Valid()
      ensures var r := Decide(Texts(s), old(Enabled(s)), command);
        && reply == r.reply
        && Enabled(s) == After(old(Enabled(s)), r)
        && (r.write.None? ==> settings == old(settings) && server.saves == old(server.saves)
                              && server.hostilityLog == old(server.hostilityLog))
        && (r.write.Some? ==> && settings == old(settings)[SwitchKey(s) := Bool(r.write.value)]
                              && server.saves == old(server.saves) + [Save(SAVE_FILE, settings)]
                              && server.hostilityLog == old(server.hostilityLog)
                                   + (if s == Pvp then [SetAll(r.write.value, DisplayMode())] else []))
      ensures DisplayMode() == old(DisplayMode())
      ensures server.chatLog == old(server.chatLog) && server.broadcasts == old(server.broadcasts)
      ensures server.entityCount == old(server.entityCount)
    {
      var r := Decide(Texts(s), settings[SwitchKey(s)].b, command);
      if r.write.Some? {
        SetSwitch(s, r.write.value);
      }
      reply := r.reply;
    }

    /**
     * `pvpdisplaymode`: for a stored code of the table, the description names
     * the setting whose code it is; for any other code, the unknown-setting
     * message with the value.
     */
    function DisplayModeCommand(): (reply: string)
      reads this, server
      requires Valid()
      ensures forall name :: ModeCode(name) == Some(DisplayMode()) ==>
        reply == Appearance(DisplayMode()) + " (setting: " + name + ")."
      ensures ModeName(DisplayMode()).None? ==> reply == "Unknown setting, value=" + IntToString(DisplayMode())
    {
      DescribeNames(DisplayMode());
      Describe(DisplayMode())
    }

    /**
     * `setpvpdisplaymode`: a known name stores its code (and re-applies the
     * hostilities); any other name is refused and nothing changes.
     */
    method SetDisplayModeCommand(display: string) returns (reply: string)
      requires Valid()
      modifies this, server
      ensures Valid()
      ensures ModeCode(display).None? ==>
        && reply == "Unknown mode: " + display
        && settings == old(settings) && server.saves == old(server.saves)
        && server.hostilityLog == old(server.hostilityLog)
      ensures ModeCode(display).Some? ==>
        && DisplayMode() == ModeCode(display).value
        && reply == SetReply(ModeCode(display).value)
        && settings == old(settings)[KEY_PVP_DISPLAY := Int(ModeCode(display).value)]
        && server.saves == old(server.saves) + [Save(SAVE_FILE, settings)]
        && server.hostilityLog == old(server.hostilityLog) + [SetAll(Enabled(Pvp), DisplayMode())]
      ensures ModeCode(display).Some? ==> ModeName(DisplayMode()) == Some(display)
      ensures forall s: Switch :: Enabled(s) == old(Enabled(s))
      ensures server.chatLog == old(server.chatLog) && server.broadcasts == old(server.broadcasts)
      ensures server.entityCount == old(server.entityCount)
    {
      if display == "friendlyplayer" {
        SetDisplayMode(FRIENDLY_PLAYER);
        reply := "In pvp mode, players are now displayed as friendly entities and are shown on the map.";
      } else if display == "friendly" {
        SetDisplayMode(FRIENDLY);
        reply := "In pvp mode, players are now displayed as friendly entities.";
      } else if display == "hostile" {
        SetDisplayMode(HOSTILE);
        reply := "In pvp mode, players are now displayed as hostile entities.";
      } else {
        reply := "Unknown mode: " + display;
      }
    }
  }
}
