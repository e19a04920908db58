# cuwo plugin scripts: loot, CTF lobby, PVP switches and ruins

This project models five self-contained pieces of logic from the plugin
scripts of a cuwo (Cube World) server and proves properties of them in Dafny.

- **Loot resolver** (`Loot`, loot.dfy). The `LootManager` rolls a reward
  tier for the next match from one or two `randint` draws. The tier stays
  pending until `give_loot` hands one item to each member of the winning
  team and clears it. Items are built from the
  type/class/sub-type/material tables.
- **CTF lobby** (`States`, states.dfy). The pre-game state handles
  `startgame`:
  - it checks the player count and defaults the match mode;
  - it makes everyone hostile, then each team friendly within itself;
  - it tells each team where to go;
  - it hands the script over to the (empty) initialising state.

  Every other state answers `startgame` with the default refusal.
- **CTF script** (`CaptureTheFlag`, ctf.dfy). The script:
  - loads its settings file and fills in defaults;
  - has getters and setters for the flag poles and the three switches;
  - handles the admin commands `setflagpoler`/`setflagpoleb`, `loot`, `xponkill`, `xponwin` and `abortgame`;
  - validates the arguments of `startgame` and `join`;
  - computes the kill XP.
- **Advanced PVP** (`AdvancedPvp`, pvp.dfy). This part covers:
  - settings defaults;
  - the query/enable/disable/toggle families for pvp, notify-on-kill and gain-XP;
  - the display-mode name/code tables with `pvpdisplaymode` and `setpvpdisplaymode`;
  - `get_mode`;
  - pushing the settings into the entity manager.
- **Ruins** (`Ruins`, ruins.dfy). This part covers:
  - the 32-bit-style integer hash and the seeded grid noise, on Python's unbounded integers;
  - the six-loaders-per-file list;
  - the footprint clamp;
  - the inclusive min/max height scan;
  - the placement decision of `on_chunk_load`.

These modules support the five above:
- `Host` (host.dfy) holds the server's values, an `Option` type and a
  `Server` object. The object records entity-manager calls, chat lines,
  broadcasts and saved files as logs. It also holds the entity manager's
  default hostility and the number of entities, `len(server.entity_list)`.
- `PyInt` (pyint.dfy) gives Python's integer operators on unbounded
  integers: `~`, `<<`, `>>` and two's-complement `^`, plus `int()` of a float.
- `Text` (text.dfy) gives `str(int)`, `int(str)` and ASCII `lower()`.
- `Settings` (settings.dfy) holds what both scripts share: the "fill in a
  missing key" step of the settings loaders, and the outcome of an on/off
  command (its reply and the value it writes, if any).

### Parameters instead of effects

- Every `random.randint(a, b)` is a parameter constrained to `a..b`, with
  both ends included.
- The stored settings file is the `stored` parameter. Saving appends to
  `Server.saves`.
- Chunk data is abstract in `Ruins.Chunk`: column height, block type and a
  `floor` level with solid ground. The ignored block types, the placement
  threshold and the loaded model's size are parameters.
- The seed and the model-directory listing are constructor parameters of
  `Ruins.RuinsScript`.

### Behaviour kept as written

Each of these is the source's own behaviour. The model keeps it, and the
named lemma or contract states it.
- The spirit sub-draw tests `== 0` three times, so wind and ice spirits can
  never be rolled (`Loot.CalcLoot`, `Loot.CalcLootMatchesBands`).
- Rogue armor uses the mage material list, which is silk only
  (`Loot.RogueArmorIsSilk`).
- The rogue ring list is keyed by the amulet sub-type. That key is 0, the
  same as the ring's, so the lookup still succeeds
  (`Loot.RogueRingKeyedByAmulet`).
- `get_heights` scans the inclusive rectangle, so `size.x + 1` by
  `size.y + 1` columns (`Ruins.IsScan`).
- The unknown-argument reply of the CTF switch commands reads
  "Unknown prameter: ..." (`CaptureTheFlag.SwitchCommand`).
- The `startgame` rejection for a non-positive count reads "You need at
  least on point to win." (`CaptureTheFlag.StartGameCommand`).
- The tier draw is `randint(0, 200)` with both ends included: 201 values,
  so the common tier gets 100 of 201 draws rather than exactly half, and the
  spirits 21 rather than 20.

## Model

| member | source | states |
|---|---|---|
| Loot.CalcLoot | scripts/capture_the_flag/loot.py:198-221 | for a first draw in 0..200 (and a second draw in 0..3 from 180 on) the tier is one of the ten tiers and is never the wind or the ice spirit |
| Loot.CalcLootMatchesBands | scripts/capture_the_flag/loot.py:198-221 | below 180 the tier is that of the band table 100/150/165/170/176/180; from 180 on it is fire exactly when the second draw is 0 and unholy otherwise |
| Loot.CalcLootReaches | scripts/capture_the_flag/loot.py:198-221 | every tier other than wind and ice is produced by some pair of valid draws |
| Loot.LootNamesDistinct | scripts/capture_the_flag/loot.py:124-135 | the preview names of different tiers are different |
| Loot.TablesTotal | scripts/capture_the_flag/loot.py:223-762 | for every equipment type 3..9 and class 1..4 the sub-type pool exists and is non-empty, and every sub-type in it has a non-empty material list, so no lookup or draw of the resolver can fail |
| Loot.RogueArmorIsSilk | scripts/capture_the_flag/loot.py:532-538 | rogue armor has the single sub-type armor and the single material silk, the same list as mage armor, while rogue gloves are cotton |
| Loot.RogueRingKeyedByAmulet | scripts/capture_the_flag/loot.py:738-745 | the rogue ring materials are keyed by the amulet sub-type, which equals the ring sub-type, so a rogue ring gets gold or silver |
| Loot.GetSubType | scripts/capture_the_flag/loot.py:187-190 | the drawn sub-type belongs to the (type, class) pool |
| Loot.GetMaterial | scripts/capture_the_flag/loot.py:192-196 | the drawn material belongs to the (type, class, sub-type) list |
| Loot.LootItem | scripts/capture_the_flag/loot.py:152-185 | 32 blank upgrade slots, upgrade count, flags and minus modifier 0; a tier 0..4 item has type 3..9, modifier 1..10, rarity = tier, the player's level and sub-type and material from the pools; a spirit has type 11, sub-type 14, modifier 0, rarity 2, material 123 + tier (128..131) and the player's level; a mana cube has type 25 and every other field 0 |
| Loot.LootManager.constructor | scripts/capture_the_flag/loot.py:119-135 | no tier is pending and loot is enabled |
| Loot.LootManager.NewMatch | scripts/capture_the_flag/loot.py:137-139 | a pending tier is kept unchanged, otherwise the rolled tier becomes pending; afterwards a valid tier is always pending, so the pre-game preview is defined |
| Loot.LootManager.PreGameMessage | scripts/capture_the_flag/loot.py:141-144 | defined whenever a tier is pending, which `NewMatch` guarantees; the message is the preview of the pending tier and of no other tier |
| Loot.PreviewsDistinct | scripts/capture_the_flag/loot.py:124-144 | two tiers whose previews are equal are the same tier |
| Loot.LootManager.GetLootItem | scripts/capture_the_flag/loot.py:152-185 | the loop that appends 32 slots and then sets the tier's fields builds exactly `LootItem` of the pending tier |
| Loot.LootManager.GiveLoot | scripts/capture_the_flag/loot.py:146-150 | with loot enabled one gift per team member, in team order, each the pending tier's item for that member; none when disabled; the pending tier is cleared either way |
| States.StartGame | scripts/capture_the_flag/states.py:47-82 | the base state's `startgame` answers the default refusal and changes nothing; on the lobby it passes on everything `PreGameState.StartGame` states: the refusal with nothing changed for at most one entity, otherwise the effective mode, empty rosters, the hostility and chat logs, the initialising state and "Game starting..."; broadcasts, saves and the entity count stay |
| States.PreGameState.constructor | scripts/capture_the_flag/states.py:52-56 | match mode autobalance and empty red and blue rosters |
| States.PreGameState.StartGame | scripts/capture_the_flag/states.py:58-82 | with at most one entity: refusal and no change at all; otherwise the effective mode is stored, both rosters are empty, one hostile-to-all call precedes the friendly pairs of each roster, each roster member gets one chat line, the state becomes initialising and the reply is "Game starting..." |
| States.EffectiveMode | scripts/capture_the_flag/states.py:59-63 | a missing or empty mode becomes autobalance, any other is kept as given |
| States.PreGameState.Autobalance | scripts/capture_the_flag/states.py:84-85 | the stub leaves both rosters as they are |
| States.PreGameState.MakeFriendly | scripts/capture_the_flag/states.py:87-92 | the nested loop appends exactly `FriendlyPairs(players)` to the entity-manager log and touches nothing else |
| States.FriendlyPairsShape | scripts/capture_the_flag/states.py:87-92 | a roster of n gives n*n calls, call i*n+j making player i non-hostile friendly-player towards player j, self-pairs included |
| States.FriendlyPairAt | scripts/capture_the_flag/states.py:87-92 | call i*n+j of the pair list exists and makes player i friendly towards player j |
| States.PreGameState.SendChat | scripts/capture_the_flag/states.py:94-96 | the loop appends exactly one line with the message per player, in order |
| States.ChatTo | scripts/capture_the_flag/states.py:94-96 | one chat per player, the i-th addressed to the i-th player's entity with the message |
| CaptureTheFlag.LoadSettings | scripts/capture_the_flag/__init__.py:115-134 | the keys are the stored keys plus the nine known ones; stored keys keep their values; each missing known key holds its default (0.0 for the pole coordinates, true, true, false for the switches) |
| CaptureTheFlag.ChecksGiveDefaults | scripts/capture_the_flag/__init__.py:117-134 | the nine checks applied to an empty file write exactly the default table |
| CaptureTheFlag.LoadedComplete | scripts/capture_the_flag/__init__.py:115-134 | a well-typed stored file loads into settings holding all nine keys with the right kinds of value |
| Settings.WithDefaultExtends | scripts/capture_the_flag/__init__.py:117-118 | one "if key not in settings: write default" step keeps the loaded-from relation, with that default added to the table of defaults |
| CaptureTheFlag.CaptureTheFlagScript.constructor | scripts/capture_the_flag/__init__.py:103-109 | the settings are loaded from the stored file, poles and flags stand at the stored positions, the loot manager has no pending tier and mirrors the stored looting switch, and the state is a fresh lobby |
| CaptureTheFlag.CaptureTheFlagScript.SetFlagPolePos | scripts/capture_the_flag/__init__.py:161-182 | writes the three coordinate keys, moves only that pole and saves once; the getter then returns the written position; flags, switches, the other logs, the entity count and the entity manager's defaults stay |
| CaptureTheFlag.CaptureTheFlagScript.SetSwitch | scripts/capture_the_flag/__init__.py:184-210 | writes the switch's key and saves once; the looting setter also sets the loot manager's switch; the getter then returns the written value; poles, flags, the other logs, the entity count and the entity manager's defaults stay |
| CaptureTheFlag.WritePoleReadBack | scripts/capture_the_flag/__init__.py:161-182 | writing a pole keeps all nine keys with the right kinds; reading that pole back gives the written position; the other pole and the three switches are unchanged |
| CaptureTheFlag.WriteSwitchReadBack | scripts/capture_the_flag/__init__.py:184-210 | writing a switch keeps all nine keys with the right kinds; reading it back gives the written value; both poles and the other switches are unchanged |
| CaptureTheFlag.CaptureTheFlagScript.SetFlagPoleCommand | scripts/capture_the_flag/__init__.py:217-255 | without a player or outside the lobby only a refusal and no change; otherwise pole and flag move to the player's position lowered by 50000, the settings become exactly the old ones with that pole written (so the switches stay) and are saved once, and the other pole stays; in every case the chat, hostility and broadcast logs, the entity count and the entity manager's defaults stay |
| CaptureTheFlag.CaptureTheFlagScript.MovePole | scripts/capture_the_flag/__init__.py:224-229 | the pole setter and the flag move put both the pole and the flag of the team at the position; the other team's pole and flag stay, the settings are saved once, and the other logs, the entity count and the entity manager's defaults stay |
| CaptureTheFlag.SwitchCommand | scripts/capture_the_flag/__init__.py:258-344 | no argument only reports; outside the lobby a refusal; a write happens exactly for "on" when off and "off" when on, and writes the negation; "on"/"off" at the current value answer "already"; anything else is "Unknown prameter: " followed by the argument; a write of true answers the "has been enabled" text and a write of false the "has been disabled" text |
| CaptureTheFlag.SwitchCommandSettles | scripts/capture_the_flag/__init__.py:266-283 | in the lobby "on"/"off" leave the switch at the requested value and repeating the command writes nothing and answers "already" |
| CaptureTheFlag.TextsDistinct | scripts/capture_the_flag/__init__.py:266-283 | for each switch the "already" replies differ from the "has been" replies |
| CaptureTheFlag.CaptureTheFlagScript.RunSwitchCommand | scripts/capture_the_flag/__init__.py:258-344 | the reply and the new switch value are those of `SwitchCommand`; without a write the settings and the save log are unchanged; with one the settings are the old ones with that switch written, saved once; poles, flags, the pending tier, the chat, hostility and broadcast logs, the entity count and the entity manager's defaults stay |
| CaptureTheFlag.CaptureTheFlagScript.ApplySwitch | scripts/capture_the_flag/__init__.py:269-279 | without a write nothing changes; with one the switch reads back the written value, the settings are the old ones with that key written and saved once, and everything else stays |
| CaptureTheFlag.CaptureTheFlagScript.AbortGame | scripts/capture_the_flag/__init__.py:347-353 | whatever the state, a fresh lobby replaces it, one broadcast is sent and the reply is "Game successfully aborted."; the other logs, the saves, the entity count and the entity manager's defaults stay |
| CaptureTheFlag.StartGameCommand | scripts/capture_the_flag/__init__.py:356-375 | hands on exactly when the lower-cased mode is autobalance or choose and the count parses as a positive integer, with that mode and count; otherwise the unknown-mode, could-not-parse or at-least-one-point reply |
| CaptureTheFlag.StartGameDefaults | scripts/capture_the_flag/__init__.py:357-375 | any capitalisation of a valid mode with the count left out starts a one-point match |
| CaptureTheFlag.StartGameAcceptsCount | scripts/capture_the_flag/__init__.py:364-375 | a positive count written in decimal is accepted with exactly that value |
| Text.ParseInt | scripts/capture_the_flag/__init__.py:364-368 | `int()` of a string succeeds exactly when the text, with tab, line feed, vertical tab, form feed, carriage return and space removed from both ends, is an optionally signed digit string (single underscores between digits allowed) |
| Text.ParseIntRejectsSeparator | scripts/capture_the_flag/__init__.py:364-368 | a count with the separator 0x1c in front or 0x1f behind does not parse: `int()` does not skip them |
| Text.ParseIntToString | scripts/capture_the_flag/__init__.py:364-368 | parsing the decimal text of any integer gives that integer back |
| Text.ToLower | scripts/capture_the_flag/__init__.py:359 | same length, each ASCII capital replaced by its small letter (code + 32), every other character kept, no capital left |
| CaptureTheFlag.JoinCommand | scripts/capture_the_flag/__init__.py:377-387 | no player gives the command-line refusal, no team the choose-a-team reply; it hands on exactly when both are present, with them |
| CaptureTheFlag.CalculateXp | scripts/capture_the_flag/__init__.py:95-97 | at least 1; 1 when 25 times the level ratio is below 2, and otherwise the whole number at most 1 below that product |
| CaptureTheFlag.WholeRatioXp | scripts/capture_the_flag/__init__.py:95-97 | a kill at n >= 1 times the killer's level gives 25 n, so 25 at the same level |
| PyInt.Trunc | scripts/capture_the_flag/__init__.py:97 | `int()` of a float rounds toward zero: within 1 of the value, never past it away from zero |
| AdvancedPvp.LoadSettings | scripts/advanced_pvp.py:80-89 | the keys are the stored keys plus the four known ones; stored keys keep their values; missing ones default to pvp on, notify off, gain XP on, display hostile (1) |
| AdvancedPvp.ChecksGiveDefaults | scripts/advanced_pvp.py:82-89 | the four checks applied to an empty file write exactly the default table |
| AdvancedPvp.LoadedComplete | scripts/advanced_pvp.py:80-89 | a well-typed stored file loads into settings holding all four keys with the right kinds of value |
| AdvancedPvp.PvpScript.constructor | scripts/advanced_pvp.py:80-93 | the settings are loaded from the stored file and the entity manager's default hostile flag and hostility are the pvp switch and display mode |
| AdvancedPvp.PvpScript.GetMode | scripts/advanced_pvp.py:95-99 | "pvp" exactly when pvp is enabled, "default" otherwise |
| AdvancedPvp.PvpScript.UpdateHostilities | scripts/advanced_pvp.py:101-107 | one set-all call with the pvp switch and display mode, which also become the entity manager's defaults |
| AdvancedPvp.PvpScript.SetSwitch | scripts/advanced_pvp.py:113-151 | writes the key and saves once, re-applies the hostilities only for pvp, keeps the display mode; the getter then returns the written value; chat, broadcasts and the entity count stay |
| AdvancedPvp.PvpScript.SetDisplayMode | scripts/advanced_pvp.py:153-166 | writes the display mode, saves and re-applies the hostilities with it; the switches keep their values; chat, broadcasts and the entity count stay |
| AdvancedPvp.Decide | scripts/advanced_pvp.py:172-283 | query only reports; enable writes true exactly when off and answers "already" when on; disable mirrors it; toggle gives exactly the disable outcome when on and the enable outcome when off, reply included; no command writes the current value |
| AdvancedPvp.EnableDisableSettle | scripts/advanced_pvp.py:182-198 | enable leaves the setting on and disable leaves it off, and repeating either writes nothing |
| AdvancedPvp.ToggleTwice | scripts/advanced_pvp.py:202-207 | a toggle flips the setting and two toggles restore it |
| AdvancedPvp.PvpScript.RunSwitchCommand | scripts/advanced_pvp.py:172-283 | reply and new value are those of `Decide`; without a write the settings, saves and hostility log are unchanged; with one the settings are the old ones with that key written, saved once, and the hostilities are re-applied exactly when the switch is pvp; the display mode, chat, broadcasts and the entity count stay |
| AdvancedPvp.ModeCode | scripts/advanced_pvp.py:301-313 | an accepted name maps to one of the codes 0, 1, 2 |
| AdvancedPvp.ModeCodeName | scripts/advanced_pvp.py:287-313 | name to code and code to name are inverse, in both directions |
| AdvancedPvp.PvpScript.DisplayModeCommand | scripts/advanced_pvp.py:287-297 | for a stored code of the table the reply names the setting whose code it is; for any other code it is the unknown-setting message with the value |
| AdvancedPvp.DescribeNames | scripts/advanced_pvp.py:287-297 | the description of a code names every accepted name with that code, and any other code gives the unknown-setting message |
| AdvancedPvp.DescribeAfterSet | scripts/advanced_pvp.py:287-297 | after an accepted name is stored, `pvpdisplaymode` names that same setting; any other code gives the unknown-setting message with its value |
| AdvancedPvp.PvpScript.SetDisplayModeCommand | scripts/advanced_pvp.py:301-313 | a known name stores its code, saves once, re-applies the hostilities and replies accordingly, and the stored code names the given setting; any other name answers "Unknown mode: " followed by the name and changes nothing; the switches, chat, broadcasts and the entity count stay |
| AdvancedPvp.CalculateXp | scripts/advanced_pvp.py:73-74 | at least 1; 1 when 10 times the level ratio is below 2, and otherwise the whole number at most 1 below that product |
| AdvancedPvp.WholeRatioXp | scripts/advanced_pvp.py:73-74 | a kill at n >= 1 times the killer's level gives 10 n, so 10 at the same level |
| Text.NatToString | scripts/advanced_pvp.py:297 | the decimal text of a natural number is non-empty and made of digits |
| Ruins.Hash | scripts/ruins/__init__.py:208-221 | for every integer key, negative ones included, the hash lies in 0..127 |
| Ruins.HashOfZero | scripts/ruins/__init__.py:215-221 | the key 0 hashes to 0 |
| PyInt.XorBit | scripts/ruins/__init__.py:216 | `^` on unbounded integers is bitwise in two's complement: bit i of a ^ b is set exactly when the bits i of a and b differ, negative operands included |
| PyInt.NotBit | scripts/ruins/__init__.py:215 | `~k` flips every bit of k |
| Ruins.Noise | scripts/ruins/__init__.py:223-233 | for every seed and coordinate pair the noise lies in 0..127 |
| Ruins.ModelFiles | scripts/ruins/__init__.py:131-133 | the paths are those of exactly the regular `.cub` entries of the listing, prefixed by the model directory |
| Ruins.ModelFilesAppend | scripts/ruins/__init__.py:131-133 | the listing order is kept: the files of two listings one after the other are those of the first followed by those of the second |
| Ruins.ModelFilesSingle | scripts/ruins/__init__.py:131-133 | one entry gives its prefixed path exactly when it is a regular `.cub` file, and nothing otherwise |
| Ruins.BuildLoaders | scripts/ruins/__init__.py:134-141 | six loaders per file, 6*n in all, loader 6*i+k being file i with the k-th of default, left, right, 180, mirror x, mirror y |
| Ruins.RuinsScript.constructor | scripts/ruins/__init__.py:119-141 | keeps the seed and builds the six-per-file loader list of the `.cub` files |
| Ruins.SurfaceFrom | scripts/ruins/__init__.py:198-201 | the descent stops at or below its start, on a level whose block underneath is not ignored, having passed only ignored blocks |
| Ruins.ColumnHeight | scripts/ruins/__init__.py:196-201 | the descended height never exceeds the column's height |
| Ruins.DescendColumn | scripts/ruins/__init__.py:196-201 | the while loop stops at exactly the descended height |
| Ruins.GetHeights | scripts/ruins/__init__.py:180-206 | every column of the inclusive rectangle has its descended height in [min, max]; min is attained or stays 100000, max is attained or stays 0 |
| Ruins.ScanColumn | scripts/ruins/__init__.py:192-205 | over one column range the running minimum only decreases and the maximum only increases, every descended height lies between them, and a changed bound is the height of some column in the range |
| Ruins.IsScan | scripts/ruins/__init__.py:180-206 | the specification of `get_heights`: every column of the inclusive rectangle lx..ux by ly..uy lies in [lo, hi], lo is attained or is the start 100000, hi is attained or is the start 0 |
| Ruins.IsScanUnique | scripts/ruins/__init__.py:191-206 | the scan result is determined by the chunk and the rectangle |
| Ruins.ScanOrdered | scripts/ruins/__init__.py:191-206 | on a non-empty rectangle min <= max |
| Ruins.Footprint | scripts/ruins/__init__.py:161-167 | the footprint spans exactly the model's x and y size, ends at 256 at the latest, starts at the noise corner or is pulled back to 256 - size, and starts at 0 or more when the model fits the chunk |
| Ruins.RuinsScript.OnChunkLoad | scripts/ruins/__init__.py:143-178 | nothing is attempted exactly when the noise is at most the threshold; an attempt uses loader noise % count, the footprint and its height scan, and places the model exactly when the span is under 0.4 of its height, at lower x + 256 * chunk x, lower y + 256 * chunk y, lower z |

## Left out

- scripts/capture_the_flag/util.py (flag and flag-pole objects, particle effects) is not part of this model: it is float trigonometry and host objects. `__create_flag_poles` is reduced to the two flag and two pole positions. As written it would raise `TypeError`, since `Flag` is built with four arguments and takes three.
- scripts/random_events.py is not part of this model: it is driven by the clock and `random`, and acts only through host entity calls and chat.
- scripts/capture_the_flag/default_config.py is not part of this model: it is constant data the modelled code does not read.
- Host I/O is modelled as follows. `save_data`, `send_chat`, the broadcasts and the entity manager calls are logs on `Host.Server`. `load_data` is the `stored` argument of the two script constructors. `len(server.entity_list)` is `Host.Server.entityCount`. The CTF script's `entity_id_mapping` is not modelled: only the connection callbacks, which are left out, use it. The config lookup and `shutil.copyfile` in the ruins `on_load` and `listdir`/`isfile` are left out; the listing is taken as given, in its order. Model loading, rotation, mirroring and `place_in_world` are left out too: a placement is reported as a `Placed` outcome.
- get_mode of the CTF script (a constant 'CTF'), `update`, `on_unload` (`dispose` of the poles) and the pvp property deleters are left out: they have no logic.
- The connection callbacks are left out: CTF `on_join`, `on_unload`, `on_hit` and `on_kill`, and PVP `on_join` and `on_kill`. They call state methods that do not exist, build kill packets, and the PVP handler reads a `connectionplayer` attribute that does not exist. Only their XP formulas are modelled.
- CaptureTheFlag.StartGameCommand: stops at the hand-over. The source then calls the one-parameter `startgame` of the state with two arguments, which raises `TypeError`.
- CaptureTheFlag.JoinCommand: stops at the hand-over. The source then calls a `join` method that no game state defines.
- CaptureTheFlag.CalculateXp and AdvancedPvp.CalculateXp use exact real division instead of floating point, so the value can differ from the source by float rounding; the lower bound of 1 does not depend on it. A killer of level 0 is excluded by a requires: the source raises `ZeroDivisionError`.
- Ruins.RuinsScript.OnChunkLoad: the test `span < 0.4 * size.z` is stated exactly as `10 * span < 4 * size.z`, without float rounding.
- Ruins.RuinsScript.OnChunkLoad: the ignored block types and the threshold from the cuwo world generator and the ruins config are parameters, and so is the loaded model's size.
- Ruins.GetHeights, Ruins.DescendColumn and Ruins.RuinsScript.OnChunkLoad require a `Grounded` chunk: every column has a level at or below its height with a non-ignored block underneath. The model needs it to prove that the descent terminates; the source does not say what lies below a column.
- CaptureTheFlag.CaptureTheFlagScript.constructor and AdvancedPvp.PvpScript.constructor require the stored file's known keys to hold values of the right kind (a real for a coordinate, a bool for a switch, an int for the display mode). A file with other values is not modelled.
- Loot.LootItem and Loot.LootManager.GetLootItem require the player's class to be one of the four classes: the source raises `KeyError` for any other.
- Loot.LootManager.GiveLoot requires a pending tier when loot is enabled and the team is not empty. Without one the source compares `None` with integers and raises `TypeError`.
- Text.ParseInt and Text.ToLower handle ASCII only: Python's `int()` also accepts non-ASCII digits and whitespace, and `lower()` also lowers non-ASCII letters.
- Text.ParseInt follows `int()` of Python 3.6 and later, which accepts single underscores between digits (PEP 515). On Python 3.5 and earlier `int("1_0")` raises `ValueError`, which the model does not capture.
- Loot.LootManager.PreGameMessage requires a pending tier: the source raises `KeyError` when none is pending, that is before the first `new_match` and after `give_loot` has cleared the tier.
- Ruins.GetHeights: when noise + size.x or noise + size.y reaches 256, the inclusive scan reads column or row 256, outside the chunk's columns 0..255. `Ruins.Chunk` gives a height for every integer coordinate, so the model takes an arbitrary height there and does not capture what the host does on such a read.
- Float coordinates are exact reals (`Host.Vec3`).
