/**
 * What the scripts see of the host engine: players, positions, persisted
 * setting values and a recording of the calls the scripts make on the
 * server (entity-manager hostility calls, chat, disk saves).
 */
module Host {

  datatype Option<T> = None | Some(value: T)

  /** A position in engine distance units. */
  datatype Vec3 = Vec3(x: real, y: real, z: real)

  /** The parts of a connected player the scripts read. */
  datatype Player = Player(entityId: int, level: int, classType: int, position: Vec3)

  /** A value held in a persisted settings dictionary. */
  datatype Value = Bool(b: bool) | Int(i: int) | Real(r: real)

  /** Hostility display codes of the entity manager. */
  const FRIENDLY_PLAYER := 0
  const HOSTILE := 1
  const FRIENDLY := 2

  /** One call on the entity manager. */
  datatype HostilityCall =
    | SetAll(hostile: bool, mode: int)
    | SetPair(id1: int, id2: int, hostile: bool, mode: int)

  /** A chat line sent to one player. */
  datatype Chat = Chat(entityId: int, message: string)

  /** One `save_data(file, settings)` call. */
  datatype Save = Save(file: string, data: map<string, Value>)

  /**
   * The server as a recording: every effect the scripts have on the host is
   * appended to one of these logs, so that contracts can say exactly which
   * calls were made, and in which order.
   */
  class Server {
    var entityCount: nat
    var hostilityLog: seq<HostilityCall>
    var defaultHostile: bool
    var defaultHostility: int
    var chatLog: seq<Chat>
    var broadcasts: seq<string>
    var saves: seq<Save>

    constructor (entityCount: nat)
      ensures this.entityCount == entityCount
      ensures hostilityLog == [] && chatLog == [] && broadcasts == [] && saves == []
    {
      this.entityCount := entityCount;
      hostilityLog, chatLog, broadcasts, saves := [], [], [], [];
    }
  }
}
