/**
 * The capture-the-flag game states. The lobby (`PreGameState`) accepts
 * `startgame`: with more than one entity on the server it fixes the match
 * mode, resets the rosters, makes every player hostile to every other, then
 * each team's members friendly to each other, tells each team where to go,
 * and hands over to `GameInitialisingState`. Every other state answers
 * `startgame` with the default refusal.
 */
module States {
  import opened Host

  const DEFAULT_REPLY := "This command cannot be issued in the current state of the game."
  const NOT_ENOUGH_PLAYERS := "Not enough players to start a match!"
  const GAME_STARTING := "Game starting..."
  const RED_BASE := "Please go to the red base."
  const BLUE_BASE := "Please go to the blue base."
  const AUTOBALANCE := "autobalance"

  /**
   * The state objects the CTF script can hold. The initialising state keeps
   * nothing of what it is constructed with: its constructor drops the
   * rosters it is handed.
   */
  datatype GameState = PreGame(lobby: PreGameState) | Initialising

  /** The `game_state` attribute of the CTF script, which states replace. */
  class GameSlot {
    var gameState: GameState

    constructor (gameState: GameState)
      ensures this.gameState == gameState
    {
      this.gameState := gameState;
    }
  }

  /** One non-hostile friendly-player call per ordered pair of `players`, row by row. */
  function FriendlyPairs(players: seq<Player>): seq<HostilityCall>
  {
    FriendlyRows(players, players)
  }

  /** The calls for the rows `rows` of the pair matrix over `all`. */
  function FriendlyRows(rows: seq<Player>, all: seq<Player>): seq<HostilityCall>
  {
    if rows == [] then []
    else FriendlyRows(rows[..|rows| - 1], all) + FriendlyRow(rows[|rows| - 1], all)
  }

  /** The calls pairing `p1` with each of `all`, in order. */
  function FriendlyRow(p1: Player, all: seq<Player>): (calls: seq<HostilityCall>)
    ensures |calls| == |all|
  {
    seq(|all|, j requires 0 <= j < |all| => SetPair(p1.entityId, all[j].entityId, false, FRIENDLY_PLAYER))
  }

  lemma MulMono(a: nat, b: nat, n: nat)
    requires a <= b
    ensures a * n <= b * n
  {
  }

  lemma {:induction false} FriendlyRowsLength(rows: seq<Player>, all: seq<Player>)
    ensures |FriendlyRows(rows, all)| == |rows| * |all|
  {
    if rows != [] {
      FriendlyRowsLength(rows[..|rows| - 1], all);
      assert |rows| * |all| == (|rows| - 1) * |all| + |all|;
    }
  }

  lemma {:induction false} FriendlyRowsAt(rows: seq<Player>, all: seq<Player>, i: nat, j: nat)
    requires i < |rows| && j < |all|
    ensures i * |all| + j < |FriendlyRows(rows, all)|
    ensures FriendlyRows(rows, all)[i * |all| + j] == SetPair(rows[i].entityId, all[j].entityId, false, FRIENDLY_PLAYER)
  {
    var init := rows[..|rows| - 1];
    var head := FriendlyRows(init, all);
    FriendlyRowsLength(init, all);
    FriendlyRowsLength(rows, all);
    if i < |init| {
      MulMono(i + 1, |init|, |all|);
      FriendlyRowsAt(init, all, i, j);
      assert init[i] == rows[i];
    } else {
      assert i * |all| + j == |head| + j;
    }
  }

  /** Call `i * n + j` of the pair list of a roster of `n`. */
  lemma FriendlyPairAt(players: seq<Player>, i: nat, j: nat)
    requires i < |players| && j < |players|
    ensures i * |players| + j < |FriendlyPairs(players)|
    ensures FriendlyPairs(players)[i * |players| + j] == SetPair(players[i].entityId, players[j].entityId, false, FRIENDLY_PLAYER)
  {
    FriendlyRowsAt(players, players, i, j);
  }

  /**
   * `__make_friendly` issues `n * n` calls for a roster of `n`: call
   * `i * n + j` makes player `i` friendly towards player `j`, self-pairs
   * included.
   */
  lemma FriendlyPairsShape(players: seq<Player>)
    ensures |FriendlyPairs(players)| == |players| * |players|
    ensures forall i, j :: 0 <= i < |players| && 0 <= j < |players| ==>
      FriendlyPairs(players)[i * |players| + j] == SetPair(players[i].entityId, players[j].entityId, false, FRIENDLY_PLAYER)
  {
    FriendlyRowsLength(players, players);
    forall i, j | 0 <= i < |players| && 0 <= j < |players|
      ensures FriendlyPairs(players)[i * |players| + j] == SetPair(players[i].entityId, players[j].entityId, false, FRIENDLY_PLAYER)
    {
      FriendlyPairAt(players, i, j);
    }
  }

  /** One chat line with `message` for each of `players`, in order (`__send_chat`). */
  function ChatTo(message: string, players: seq<Player>): (chats: seq<Chat>)
    ensures |chats| == |players|
    ensures forall i :: 0 <= i < |players| ==> chats[i] == Chat(players[i].entityId, message)
  {
    seq(|players|, i requires 0 <= i < |players| => Chat(players[i].entityId, message))
  }

  /** The mode `startgame` stores: a missing or empty mode means autobalance. */
  function EffectiveMode(matchMode: Option<string>): (mode: string)
    ensures matchMode.Some? && matchMode.value != "" ==> mode == matchMode.value
    ensures matchMode.None? || matchMode.value == "" ==> mode == AUTOBALANCE
    ensures mode != ""
  {
    if matchMode.None? || matchMode.value == "" then AUTOBALANCE else matchMode.value
  }

  /** The lobby: the last match mode and the two rosters. */
  class PreGameState {
    const server: Server
    const ctf: GameSlot
    var matchMode: string
    var red: seq<Player>
    var blue: seq<Player>

    constructor (server: Server, ctf: GameSlot)
      ensures this.server == server && this.ctf == ctf
      ensures matchMode == AUTOBALANCE && red == [] && blue == []
    {
      this.server := server;
      this.ctf := ctf;
      matchMode := AUTOBALANCE;
      red, blue := [], [];
    }

    /**
     * `startgame`. With at most one entity it refuses and changes nothing.
     * Otherwise it stores the effective mode, empties both rosters (the
     * autobalance step does nothing), makes everyone hostile to everyone,
     * then each team friendly within itself, sends each team member one
     * line, and replaces the script's state with the initialising state.
     */
    method StartGame(matchMode: Option<string>) returns (reply: string)
      modifies this, server, ctf
      ensures old(server.entityCount) <= 1 ==>
        && reply == NOT_ENOUGH_PLAYERS
        && ctf.gameState == old(ctf.gameState)
        && this.matchMode == old(this.matchMode) && red == old(red) && blue == old(blue)
        && server.hostilityLog == old(server.hostilityLog) && server.chatLog == old(server.chatLog)
      ensures old(server.entityCount) > 1 ==>
        && reply == GAME_STARTING
        && ctf.gameState == Initialising
        && this.matchMode == EffectiveMode(matchMode)
        && red == [] && blue == []
        && server.hostilityLog == old(server.hostilityLog) + [SetAll(true, HOSTILE)] + FriendlyPairs(red) + FriendlyPairs(blue)
        && server.chatLog == old(server.chatLog) + ChatTo(RED_BASE, red) + ChatTo(BLUE_BASE, blue)
      ensures server.entityCount == old(server.entityCount)
      ensures server.broadcasts == old(server.broadcasts) && server.saves == old(server.saves)
      ensures server.defaultHostile == old(server.defaultHostile) && server.defaultHostility == old(server.defaultHostility)
    {
      if server.entityCount > 1 {
        this.matchMode := EffectiveMode(matchMode);
        red, blue := [], [];
        Autobalance();
        server.hostilityLog := server.hostilityLog + [SetAll(true, HOSTILE)];
        MakeFriendly(red);
        MakeFriendly(blue);
        SendChat(RED_BASE, red);
        SendChat(BLUE_BASE, blue);
        ctf.gameState := Initialising;
        reply := GAME_STARTING;
      } else {
        reply := NOT_ENOUGH_PLAYERS;
      }
    }

    /** `__autobalance`: a stub that leaves the rosters as they are. */
    method Autobalance()
      ensures red == old(red) && blue == old(blue)
    {
    }

    /** `__make_friendly`: the nested loop over every ordered pair of `players`. */
    method MakeFriendly(players: seq<Player>)
      modifies server
      ensures server.hostilityLog == old(server.hostilityLog) + FriendlyPairs(players)
      ensures server.chatLog == old(server.chatLog) && server.broadcasts == old(server.broadcasts)
      ensures server.saves == old(server.saves) && server.entityCount == old(server.entityCount)
      ensures server.defaultHostile == old(server.defaultHostile) && server.defaultHostility == old(server.defaultHostility)
    {
      var i := 0;
      while i < |players|
        invariant 0 <= i <= |players|
        invariant server.hostilityLog == old(server.hostilityLog) + FriendlyRows(players[..i], players)
        invariant server.chatLog == old(server.chatLog) && server.broadcasts == old(server.broadcasts)
        invariant server.saves == old(server.saves) && server.entityCount == old(server.entityCount)
        invariant server.defaultHostile == old(server.defaultHostile) && server.defaultHostility == old(server.defaultHostility)
      {
        var p1 := players[i];
        var j := 0;
        while j < |players|
          invariant 0 <= j <= |players|
          invariant server.hostilityLog == old(server.hostilityLog) + FriendlyRows(players[..i], players) + FriendlyRow(p1, players[..j])
          invariant server.chatLog == old(server.chatLog) && server.broadcasts == old(server.broadcasts)
          invariant server.saves == old(server.saves) && server.entityCount == old(server.entityCount)
          invariant server.defaultHostile == old(server.defaultHostile) && server.defaultHostility == old(server.defaultHostility)
        {
          var p2 := players[j];
          assert FriendlyRow(p1, players[..j + 1]) == FriendlyRow(p1, players[..j]) + [SetPair(p1.entityId, p2.entityId, false, FRIENDLY_PLAYER)];
          server.hostilityLog := server.hostilityLog + [SetPair(p1.entityId, p2.entityId, false, FRIENDLY_PLAYER)];
          j := j + 1;
        }
        assert players[..j] == players;
        assert players[..i + 1][..i] == players[..i];
        i := i + 1;
      }
      assert players[..i] == players;
    }

    /** `__send_chat`: one line to each of `players`. */
    method SendChat(message: string, players: seq<Player>)
      modifies server
      ensures server.chatLog == old(server.chatLog) + ChatTo(message, players)
      ensures server.hostilityLog == old(server.hostilityLog) && server.broadcasts == old(server.broadcasts)
      ensures server.saves == old(server.saves) && server.entityCount == old(server.entityCount)
      ensures server.defaultHostile == old(server.defaultHostile) && server.defaultHostility == old(server.defaultHostility)
    {
      var i := 0;
      while i < |players|
        invariant 0 <= i <= |players|
        invariant server.chatLog == old(server.chatLog) + ChatTo(message, players[..i])
        invariant server.hostilityLog == old(server.hostilityLog) && server.broadcasts == old(server.broadcasts)
        invariant server.saves == old(server.saves) && server.entityCount == old(server.entityCount)
        invariant server.defaultHostile == old(server.defaultHostile) && server.defaultHostility == old(server.defaultHostility)
      {
        assert ChatTo(message, players[..i + 1]) == ChatTo(message, players[..i]) + [Chat(players[i].entityId, message)];
        server.chatLog := server.chatLog + [Chat(players[i].entityId, message)];
        i := i + 1;
      }
      assert players[..i] == players;
    }
  }

  /**
   * `game_state.startgame(mode)` on whichever state the script holds: the
   * lobby's own handler, or the base handler of every other state, which
   * only answers with the default refusal.
   */
  method StartGame(state: GameState, matchMode: Option<string>) returns (reply: string)
    modifies if state.PreGame? then {state.lobby, state.lobby.server, state.lobby.ctf} else {}
    ensures state.Initialising? ==> reply == DEFAULT_REPLY
    ensures state.PreGame? ==> var l := state.lobby;
      && (old(l.server.entityCount) <= 1 ==>
           && reply == NOT_ENOUGH_PLAYERS
           && l.ctf.gameState == old(l.ctf.gameState)
           && l.matchMode == old(l.matchMode) && l.red == old(l.red) && l.blue == old(l.blue)
           && l.server.hostilityLog == old(l.server.hostilityLog) && l.server.chatLog == old(l.server.chatLog))
      && (old(l.server.entityCount) > 1 ==>
           && reply == GAME_STARTING
           && l.ctf.gameState == Initialising
           && l.matchMode == EffectiveMode(matchMode)
           && l.red == [] && l.blue == []
           && l.server.hostilityLog == old(l.server.hostilityLog) + [SetAll(true, HOSTILE)] + FriendlyPairs(l.red) + FriendlyPairs(l.blue)
           && l.server.chatLog == old(l.server.chatLog) + ChatTo(RED_BASE, l.red) + ChatTo(BLUE_BASE, l.blue))
      && l.server.entityCount == old(l.server.entityCount)
      && l.server.broadcasts == old(l.server.broadcasts) && l.server.saves == old(l.server.saves)
  {
    match state
    case PreGame(lobby) =>
      reply := lobby.StartGame(matchMode);
    case Initialising =>
      reply := DEFAULT_REPLY;
  }
}
