/** The authoritative game session of the multiplayer server: the player
    registry, the coin pool and one handler per inbound intent.

    Each intent runs to completion before the next one starts, so every
    handler is a single state transition. The transitions are written once
    as functions on `World` (the specification) and once as the methods of
    class `Server`, which update the fields in place and are proved to do
    what the functions say. */
module GameServer {
  import opened Protocol

  type ItemId = string

  /** Size of the coin pool. */
  const MaxItems: nat := 10
  /** Score for collecting one coin. */
  const CoinReward: int := 10
  /** Score for a hit on a living player. */
  const HitReward: int := 50

  /** A registered player as the server stores it. Positions are only
      echoed from the client, so plain integers stand for them. */
  datatype Player = Player(
    id: SocketId,
    x: int,
    y: int,
    color: int,
    score: int,
    isAlive: bool,
    lastActivity: int)

  /** A coin of the pool (its type tag is always `coin`). */
  datatype Item = Item(id: ItemId, x: int, y: int)

  /** Who receives an emitted event: the one socket, every socket but the
      sender (`socket.broadcast.emit`), or every socket (`io.emit`). */
  datatype Audience = ToSocket(socket: SocketId) | AllExcept(sender: SocketId) | Everyone

  datatype Message =
    | CurrentPlayers(players: map<SocketId, Player>)
    | GameState(items: seq<Item>, maxItems: nat)
    | NewPlayer(player: Player)
    | PlayerMoved(player: Player)
    | ItemCollected(itemId: ItemId, playerId: SocketId, newItem: Item)
    | ScoreUpdate(playerId: SocketId, score: int)
    | PlayerKilled(target: HitPayload)
    | PlayerRespawned(target: HitPayload, x: int, y: int)
    | PlayerDisconnected(id: SocketId)

  datatype Emit = Emit(to: Audience, msg: Message)

  /** The whole session: the registry, the pool, and the respawn timers
      still pending, oldest first (they all have the same delay, so they
      fire in the order they were set). */
  datatype World = World(
    players: map<SocketId, Player>,
    items: seq<Item>,
    respawns: seq<HitPayload>)

  /** The session after one intent, with what it emitted, in order. */
  datatype Step = Step(world: World, out: seq<Emit>)

  ghost predicate HasItem(items: seq<Item>, id: ItemId)
  {
    exists j :: 0 <= j < |items| && items[j].id == id
  }

  /** No two coins of the pool share the id `id`. */
  ghost predicate AtMostOnce(items: seq<Item>, id: ItemId)
  {
    forall i, j :: 0 <= i < j < |items| && items[i].id == id ==> items[j].id != id
  }

  /** `players[k]` leaves every field but `score` and `lastActivity` as it was. */
  ghost predicate SameButScore(p: Player, q: Player)
  {
    p.id == q.id && p.x == q.x && p.y == q.y && p.color == q.color && p.isAlive == q.isAlive
  }

  /** `Array.prototype.findIndex` on the item ids: the first index whose
      id is `id`, or -1 when there is none. */
  function FindIndex(items: seq<Item>, id: ItemId): (r: int)
    ensures -1 <= r < |items|
    ensures r == -1 <==> !HasItem(items, id)
    ensures r >= 0 ==> items[r].id == id && forall j :: 0 <= j < r ==> items[j].id != id
    decreases |items|
  {
    if |items| == 0 then -1
    else if items[0].id == id then 0
    else
      var k := FindIndex(items[1..], id);
      assert forall j :: 0 < j < |items| ==> items[j] == items[1..][j - 1];
      if k == -1 then -1 else k + 1
  }

  /** `splice(i, 1)`. */
  function RemoveAt(items: seq<Item>, i: nat): (r: seq<Item>)
    requires i < |items|
    ensures |r| == |items| - 1
    ensures forall k :: 0 <= k < i ==> r[k] == items[k]
    ensures forall k :: i <= k < |r| ==> r[k] == items[k + 1]
  {
    items[..i] + items[i + 1..]
  }

  /** The `connection` handler: register the socket as a fresh player
      (score 0, alive), send it the registry and the pool, and tell the
      others about it. */
  function Connect(w: World, sid: SocketId, x: int, y: int, color: int, now: int): (r: Step)
    ensures r.world.players.Keys == w.players.Keys + {sid}
    ensures r.world.players[sid] == Player(sid, x, y, color, 0, true, now)
    ensures forall id :: id in w.players && id != sid ==> r.world.players[id] == w.players[id]
    ensures r.world.items == w.items && r.world.respawns == w.respawns
    ensures r.out == [Emit(ToSocket(sid), CurrentPlayers(r.world.players)),
                      Emit(ToSocket(sid), GameState(w.items, MaxItems)),
                      Emit(AllExcept(sid), NewPlayer(r.world.players[sid]))]
  {
    var p := Player(sid, x, y, color, 0, true, now);
    var ps := w.players[sid := p];
    Step(World(ps, w.items, w.respawns),
         [Emit(ToSocket(sid), CurrentPlayers(ps)),
          Emit(ToSocket(sid), GameState(w.items, MaxItems)),
          Emit(AllExcept(sid), NewPlayer(p))])
  }

  /** The `playerMovement` handler: overwrite the sender's position, but
      only when the sender is registered. */
  function Movement(w: World, sid: SocketId, x: int, y: int, now: int): (r: Step)
    ensures sid !in w.players ==> r == Step(w, [])
    ensures sid in w.players ==>
      && r.world.players.Keys == w.players.Keys
      && r.world.players[sid].x == x && r.world.players[sid].y == y
      && r.world.players[sid].lastActivity == now
      && r.world.players[sid].id == w.players[sid].id
      && r.world.players[sid].color == w.players[sid].color
      && r.world.players[sid].score == w.players[sid].score
      && r.world.players[sid].isAlive == w.players[sid].isAlive
      && (forall id :: id in w.players && id != sid ==> r.world.players[id] == w.players[id])
      && r.world.items == w.items && r.world.respawns == w.respawns
      && r.out == [Emit(AllExcept(sid), PlayerMoved(r.world.players[sid]))]
  {
    if sid !in w.players then Step(w, [])
    else
      var p := w.players[sid].(x := x, y := y, lastActivity := now);
      Step(w.(players := w.players[sid := p]), [Emit(AllExcept(sid), PlayerMoved(p))])
  }

  /** The `collectItem` handler. `newItem` is what the item generator
      returns when it is called. The lookup and the removal happen in one
      handler, so the first claim on a coin wins. */
  function CollectItem(w: World, sid: SocketId, itemId: ItemId, newItem: Item, now: int): (r: Step)
    ensures sid !in w.players || !HasItem(w.items, itemId) ==> r == Step(w, [])
    ensures sid in w.players && HasItem(w.items, itemId) ==>
      var i := FindIndex(w.items, itemId);
      && r.world.items == RemoveAt(w.items, i) + [newItem]
      && |r.world.items| == |w.items|
      && r.world.players.Keys == w.players.Keys
      && r.world.players[sid].score == w.players[sid].score + CoinReward
      && r.world.players[sid].lastActivity == now
      && SameButScore(r.world.players[sid], w.players[sid])
      && (forall id :: id in w.players && id != sid ==> r.world.players[id] == w.players[id])
      && r.world.respawns == w.respawns
      && r.out == [Emit(Everyone, ItemCollected(itemId, sid, newItem)),
                   Emit(Everyone, ScoreUpdate(sid, w.players[sid].score + CoinReward))]
  {
    if sid !in w.players then Step(w, [])
    else
      var i := FindIndex(w.items, itemId);
      if i == -1 then Step(w, [])
      else
        var p := w.players[sid].(score := w.players[sid].score + CoinReward, lastActivity := now);
        var items := RemoveAt(w.items, i) + [newItem];
        Step(World(w.players[sid := p], items, w.respawns),
             [Emit(Everyone, ItemCollected(itemId, sid, items[|items| - 1])),
              Emit(Everyone, ScoreUpdate(sid, p.score))])
  }

  /** The `playerHit` handler. The target is looked up with the raw
      argument, so only a payload whose `Key` is a registered id can hit.
      A hit on a living target kills it, rewards the attacker and sets a
      respawn timer. The target is updated before the attacker, which
      matters when a player hits itself. */
  function PlayerHit(w: World, sid: SocketId, payload: HitPayload, now: int): (r: Step)
    ensures sid !in w.players ==> r == Step(w, [])
    ensures Key(payload) !in w.players || !w.players[Key(payload)].isAlive ==> r == Step(w, [])
    ensures sid in w.players && Key(payload) in w.players && w.players[Key(payload)].isAlive ==>
      var t := Key(payload);
      && r.world.players.Keys == w.players.Keys
      && (t != sid ==>
            && r.world.players[t] == w.players[t].(isAlive := false, lastActivity := now)
            && r.world.players[sid] == w.players[sid].(score := w.players[sid].score + HitReward, lastActivity := now))
      && (t == sid ==>
            r.world.players[sid] == w.players[sid].(isAlive := false, score := w.players[sid].score + HitReward,
                                                    lastActivity := now))
      && (forall id :: id in w.players && id != sid && id != t ==> r.world.players[id] == w.players[id])
      && r.world.items == w.items
      && r.world.respawns == w.respawns + [payload]
      && r.out == [Emit(Everyone, PlayerKilled(payload)),
                   Emit(Everyone, ScoreUpdate(sid, w.players[sid].score + HitReward))]
  {
    if sid !in w.players then Step(w, [])
    else
      var t := Key(payload);
      if t in w.players && w.players[t].isAlive then
        var killed := w.players[t := w.players[t].(isAlive := false, lastActivity := now)];
        var a := killed[sid].(score := killed[sid].score + HitReward, lastActivity := now);
        Step(World(killed[sid := a], w.items, w.respawns + [payload]),
             [Emit(Everyone, PlayerKilled(payload)), Emit(Everyone, ScoreUpdate(sid, a.score))])
      else Step(w, [])
  }

  /** The oldest pending respawn timer fires: a target still registered
      comes back alive at the drawn position; a target that left is not
      brought back. */
  function Respawn(w: World, x: int, y: int, now: int): (r: Step)
    ensures w.respawns == [] ==> r == Step(w, [])
    ensures w.respawns != [] ==> r.world.respawns == w.respawns[1..]
    ensures r.world.players.Keys == w.players.Keys
    ensures r.world.items == w.items
    ensures w.respawns != [] && Key(w.respawns[0]) !in w.players ==>
      r.world.players == w.players && r.out == []
    ensures w.respawns != [] && Key(w.respawns[0]) in w.players ==>
      var t := Key(w.respawns[0]);
      && r.world.players[t].isAlive
      && r.world.players[t].x == x && r.world.players[t].y == y
      && r.world.players[t].lastActivity == now
      && r.world.players[t].score == w.players[t].score
      && r.world.players[t].id == w.players[t].id
      && r.world.players[t].color == w.players[t].color
      && (forall id :: id in w.players && id != t ==> r.world.players[id] == w.players[id])
      && r.out == [Emit(Everyone, PlayerRespawned(w.respawns[0], x, y))]
  {
    if w.respawns == [] then Step(w, [])
    else
      var target := w.respawns[0];
      var t := Key(target);
      if t in w.players then
        var p := w.players[t].(isAlive := true, x := x, y := y, lastActivity := now);
        Step(World(w.players[t := p], w.items, w.respawns[1..]),
             [Emit(Everyone, PlayerRespawned(target, p.x, p.y))])
      else Step(w.(respawns := w.respawns[1..]), [])
  }

  /** The `disconnect` handler: drop exactly this socket's player and
      tell the others. */
  function Disconnect(w: World, sid: SocketId): (r: Step)
    ensures r.world.players.Keys == w.players.Keys - {sid}
    ensures forall id :: id in w.players && id != sid ==> r.world.players[id] == w.players[id]
    ensures r.world.items == w.items && r.world.respawns == w.respawns
    ensures r.out == [Emit(AllExcept(sid), PlayerDisconnected(sid))]
  {
    Step(w.(players := w.players - {sid}), [Emit(AllExcept(sid), PlayerDisconnected(sid))])
  }

  /** One inbound intent or timer firing, with the values the clock and
      the random generator supply to its handler. */
  datatype Intent =
    | Joins(sid: SocketId, x: int, y: int, color: int, now: int)
    | Moves(sid: SocketId, x: int, y: int, now: int)
    | Collects(sid: SocketId, itemId: ItemId, newItem: Item, now: int)
    | Hits(sid: SocketId, payload: HitPayload, now: int)
    | RespawnFires(x: int, y: int, now: int)
    | Leaves(sid: SocketId)

  function Apply(w: World, e: Intent): (r: Step)
    ensures |r.world.items| == |w.items|
    ensures !e.Joins? ==> r.world.players.Keys <= w.players.Keys
    ensures e.Joins? ==> r.world.players.Keys == w.players.Keys + {e.sid}
  {
    match e
    case Joins(sid, x, y, color, now) => Connect(w, sid, x, y, color, now)
    case Moves(sid, x, y, now) => Movement(w, sid, x, y, now)
    case Collects(sid, itemId, newItem, now) => CollectItem(w, sid, itemId, newItem, now)
    case Hits(sid, payload, now) => PlayerHit(w, sid, payload, now)
    case RespawnFires(x, y, now) => Respawn(w, x, y, now)
    case Leaves(sid) => Disconnect(w, sid)
  }

  /** The session after handling `trace` in order. */
  function Run(w: World, trace: seq<Intent>): (r: World)
    ensures |r.items| == |w.items|
    ensures (forall k :: 0 <= k < |trace| ==> !trace[k].Joins?) ==> r.players.Keys <= w.players.Keys
    decreases |trace|
  {
    if trace == [] then w else Run(Apply(w, trace[0]).world, trace[1..])
  }

  /** The invariant every handler keeps: the pool has `MaxItems` coins,
      every registered player is stored under its own id, and no score
      is negative. */
  ghost predicate Good(w: World)
  {
    && |w.items| == MaxItems
    && (forall id :: id in w.players ==> w.players[id].id == id && w.players[id].score >= 0)
  }

  lemma ApplyKeepsGood(w: World, e: Intent)
    requires Good(w)
    ensures Good(Apply(w, e).world)
  {
    var w' := Apply(w, e).world;
    forall id | id in w'.players
      ensures w'.players[id].id == id && w'.players[id].score >= 0
    {
      match e
      case Joins(sid, x, y, color, now) =>
      case Moves(sid, x, y, now) =>
      case Collects(sid, itemId, newItem, now) =>
      case Hits(sid, payload, now) =>
      case RespawnFires(x, y, now) =>
      case Leaves(sid) =>
    }
  }

  /** Whatever intents arrive, the pool keeps exactly `MaxItems` coins and
      no score becomes negative. */
  lemma {:induction false} RunKeepsGood(w: World, trace: seq<Intent>)
    requires Good(w)
    ensures Good(Run(w, trace))
    decreases |trace|
  {
    if trace != [] {
      ApplyKeepsGood(w, trace[0]);
      RunKeepsGood(Apply(w, trace[0]).world, trace[1..]);
    }
  }

  /** `sid` joins somewhere in `trace`. */
  ghost predicate JoinsIn(trace: seq<Intent>, sid: SocketId)
  {
    exists k :: 0 <= k < |trace| && trace[k].Joins? && trace[k].sid == sid
  }

  lemma ApplyScoreNeverDecreases(w: World, e: Intent, p: SocketId)
    requires !(e.Joins? && e.sid == p)
    requires p in Apply(w, e).world.players
    ensures p in w.players
    ensures Apply(w, e).world.players[p].score >= w.players[p].score
  {
  }

  /** A player that is registered at the end of a trace in which it did
      not connect was registered at the start, and its score has not gone
      down. */
  lemma {:induction false} RunScoreNeverDecreases(w: World, trace: seq<Intent>, p: SocketId)
    requires !JoinsIn(trace, p)
    requires p in Run(w, trace).players
    ensures p in w.players
    ensures Run(w, trace).players[p].score >= w.players[p].score
    decreases |trace|
  {
    if trace != [] {
      var w1 := Apply(w, trace[0]).world;
      assert !JoinsIn(trace[1..], p) by {
        forall k | 0 <= k < |trace[1..]| ensures !(trace[1..][k].Joins? && trace[1..][k].sid == p) {
          assert trace[1..][k] == trace[k + 1];
        }
      }
      RunScoreNeverDecreases(w1, trace[1..], p);
      assert !(trace[0].Joins? && trace[0].sid == p);
      ApplyScoreNeverDecreases(w, trace[0], p);
    }
  }

  lemma RemoveAtMultiset(items: seq<Item>, i: nat)
    requires i < |items|
    ensures multiset(RemoveAt(items, i)) == multiset(items) - multiset{items[i]}
  {
    assert items == items[..i] + [items[i]] + items[i + 1..];
  }

  /** A successful claim swaps exactly one coin: the pool loses the
      claimed coin and gains the replacement, and keeps every other coin. */
  lemma CollectSwapsOneCoin(w: World, sid: SocketId, itemId: ItemId, newItem: Item, now: int)
    requires sid in w.players && HasItem(w.items, itemId)
    ensures var i := FindIndex(w.items, itemId);
            multiset(CollectItem(w, sid, itemId, newItem, now).world.items)
              == multiset(w.items) - multiset{w.items[i]} + multiset{newItem}
  {
    var i := FindIndex(w.items, itemId);
    RemoveAtMultiset(w.items, i);
    assert CollectItem(w, sid, itemId, newItem, now).world.items == RemoveAt(w.items, i) + [newItem];
  }

  /** Two claims on the same coin in a row: the first one collects it,
      the second finds nothing, so there is exactly one reward and
      exactly one replacement. This needs the coin to be unique in the
      pool and its replacement to carry a different id. */
  lemma FirstClaimWins(w: World, a: SocketId, b: SocketId, itemId: ItemId,
                       newItem1: Item, newItem2: Item, now1: int, now2: int)
    requires a in w.players && b in w.players
    requires HasItem(w.items, itemId) && AtMostOnce(w.items, itemId)
    requires newItem1.id != itemId
    ensures var s1 := CollectItem(w, a, itemId, newItem1, now1);
            var s2 := CollectItem(s1.world, b, itemId, newItem2, now2);
            && s2 == Step(s1.world, [])
            && s2.world.items == RemoveAt(w.items, FindIndex(w.items, itemId)) + [newItem1]
            && s2.world.players[a].score == w.players[a].score + CoinReward
            && (b != a ==> s2.world.players[b] == w.players[b])
            && |s1.out + s2.out| == 2
  {
    var i := FindIndex(w.items, itemId);
    var s1 := CollectItem(w, a, itemId, newItem1, now1);
    var rest := s1.world.items;
    assert rest == w.items[..i] + w.items[i + 1..] + [newItem1];
    forall j | 0 <= j < |rest| ensures rest[j].id != itemId {
      if j < i {
        assert rest[j] == w.items[j];
      } else if j < |w.items| - 1 {
        assert rest[j] == w.items[j + 1];
      }
    }
  }

  /** With the wire format the client uses (`{ targetPlayerId }`), the
      lookup misses every real socket id, so the hit changes nothing. */
  lemma ClientHitIsNoop(w: World, sid: SocketId, target: SocketId, now: int)
    requires ObjectKey !in w.players
    ensures PlayerHit(w, sid, TargetObject(target), now) == Step(w, [])
  {
  }

  /** The authoritative session state, updated in place by the handlers. */
  class Server {
    var players: map<SocketId, Player>
    var items: seq<Item>
    var respawns: seq<HitPayload>
    /** Every event emitted so far, in order. */
    var log: seq<Emit>

    function State(): World
      reads this
    {
      World(players, items, respawns)
    }

    /** Start-up: the pool is filled with `MaxItems` successive draws of
        the item generator. */
    constructor (generate: nat -> Item)
      ensures players == map[] && respawns == [] && log == []
      ensures |items| == MaxItems
      ensures forall i :: 0 <= i < MaxItems ==> items[i] == generate(i)
      ensures Good(State())
    {
      var pool: seq<Item> := [];
      for i := 0 to MaxItems
        invariant |pool| == i
        invariant forall j :: 0 <= j < i ==> pool[j] == generate(j)
      {
        pool := pool + [generate(i)];
      }
      players, items, respawns, log := map[], pool, [], [];
    }

    method OnConnection(sid: SocketId, x: int, y: int, color: int, now: int)
      modifies this
      ensures State() == Connect(old(State()), sid, x, y, color, now).world
      ensures log == old(log) + Connect(old(State()), sid, x, y, color, now).out
    {
      var p := Player(sid, x, y, color, 0, true, now);
      players := players[sid := p];
      log := log + [Emit(ToSocket(sid), CurrentPlayers(players)),
                    Emit(ToSocket(sid), GameState(items, MaxItems)),
                    Emit(AllExcept(sid), NewPlayer(players[sid]))];
    }

    method OnPlayerMovement(sid: SocketId, x: int, y: int, now: int)
      modifies this
      ensures State() == Movement(old(State()), sid, x, y, now).world
      ensures log == old(log) + Movement(old(State()), sid, x, y, now).out
    {
      if sid in players {
        var p := players[sid].(x := x, y := y, lastActivity := now);
        players := players[sid := p];
        log := log + [Emit(AllExcept(sid), PlayerMoved(p))];
      }
    }

    /** `generated` is the value the item generator returns if the coin
        is found and a replacement is drawn. */
    method OnCollectItem(sid: SocketId, itemId: ItemId, generated: Item, now: int)
      modifies this
      ensures State() == CollectItem(old(State()), sid, itemId, generated, now).world
      ensures log == old(log) + CollectItem(old(State()), sid, itemId, generated, now).out
    {
      if sid !in players {
        return;
      }
      var itemIndex := FindIndex(items, itemId);
      if itemIndex != -1 {
        var collector := players[sid].(score := players[sid].score + CoinReward, lastActivity := now);
        players := players[sid := collector];
        items := items[..itemIndex] + items[itemIndex + 1..] + [generated];
        log := log + [Emit(Everyone, ItemCollected(itemId, sid, generated)),
                      Emit(Everyone, ScoreUpdate(sid, collector.score))];
      }
    }

    method OnPlayerHit(sid: SocketId, targetId: HitPayload, now: int)
      modifies this
      ensures State() == PlayerHit(old(State()), sid, targetId, now).world
      ensures log == old(log) + PlayerHit(old(State()), sid, targetId, now).out
    {
      if sid !in players {
        return;
      }
      var key := Key(targetId);
      if key in players && players[key].isAlive {
        var target := players[key].(isAlive := false, lastActivity := now);
        players := players[key := target];
        var attacker := players[sid].(score := players[sid].score + HitReward, lastActivity := now);
        players := players[sid := attacker];
        respawns := respawns + [targetId];
        log := log + [Emit(Everyone, PlayerKilled(targetId)), Emit(Everyone, ScoreUpdate(sid, attacker.score))];
      }
    }

    /** The oldest pending respawn timer fires; `x` and `y` are the
        drawn spawn position. */
    method OnRespawnTimer(x: int, y: int, now: int)
      modifies this
      ensures State() == Respawn(old(State()), x, y, now).world
      ensures log == old(log) + Respawn(old(State()), x, y, now).out
    {
      if respawns == [] {
        return;
      }
      var targetId := respawns[0];
      respawns := respawns[1..];
      var key := Key(targetId);
      if key in players {
        var p := players[key].(isAlive := true, x := x, y := y, lastActivity := now);
        players := players[key := p];
        log := log + [Emit(Everyone, PlayerRespawned(targetId, p.x, p.y))];
      }
    }

    method OnDisconnect(sid: SocketId)
      modifies this
      ensures State() == Disconnect(old(State()), sid).world
      ensures log == old(log) + Disconnect(old(State()), sid).out
    {
      players := players - {sid};
      log := log + [Emit(AllExcept(sid), PlayerDisconnected(sid))];
    }
  }
}
