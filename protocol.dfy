/** Values that travel between the multiplayer client and the game server. */
module Protocol {

  /** A connection identifier; the server keys its player registry by it. */
  type SocketId = string

  /** What a `playerHit` intent carries on the wire. The server handler
      treats its argument as a bare player id; the client sends an object
      whose `targetPlayerId` field holds the id. */
  datatype HitPayload =
    | RawId(id: string)
    | TargetObject(targetPlayerId: string)

  /** The property name a plain object turns into when it is used to
      index another object (`players[obj]`). */
  const ObjectKey: string := "[object Object]"

  /** The property name that `players[payload]` actually looks up. */
  function Key(p: HitPayload): (k: string)
    ensures k == ObjectKey <==> p.TargetObject? || p.id == ObjectKey
  {
    match p
    case RawId(id) => id
    case TargetObject(_) => ObjectKey
  }

  /** Every object payload looks up the same key, whatever player it
      names: the lookup cannot tell two targets apart. */
  lemma ObjectPayloadsCollide(a: string, b: string)
    ensures Key(TargetObject(a)) == Key(TargetObject(b))
    ensures a != b ==> TargetObject(a) != TargetObject(b)
  {
  }
}
