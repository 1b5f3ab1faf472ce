/** The multiplayer client's own bookkeeping: the maps its socket
    handlers keep in step with the server's broadcasts, the rule that
    decides which side of a player-player collision reports the hit, and
    the send throttles of the update loop.

    Sprites, labels and coins are reduced to the values the handlers
    write into them; drawing them is not part of this model. */
module GameClient {
  import opened Protocol
  import opened Options

  /** A player "recently moved" if it moved less than this many ms ago. */
  const MoveWindow: int := 200
  /** A hit may be sent only when more than this many ms passed since the last one. */
  const HitCooldown: int := 1000
  /** A movement packet is sent only when more than this many ms passed. */
  const MoveThrottle: int := 16
  /** A heartbeat is sent only when more than this many ms passed. */
  const HeartbeatInterval: int := 5000
  /** A name label sits this far above its player. */
  const LabelOffset: int := 35

  /** JavaScript's `a > b` on two strings: lexicographic comparison by
      character, where a proper prefix is the smaller string. */
  predicate StrGreater(a: string, b: string): (r: bool)
    ensures r ==> a != b
    ensures |b| < |a| && b == a[..|b|] ==> r
    decreases |a|
  {
    if a == [] then false
    else if b == [] then true
    else if a[0] != b[0] then a[0] > b[0]
    else StrGreater(a[1..], b[1..])
  }

  lemma {:induction false} StrGreaterAsymmetric(a: string, b: string)
    ensures !(StrGreater(a, b) && StrGreater(b, a))
    decreases |a|
  {
    if a != [] && b != [] && a[0] == b[0] {
      StrGreaterAsymmetric(a[1..], b[1..]);
    }
  }

  lemma {:induction false} StrGreaterTotal(a: string, b: string)
    requires a != b
    ensures StrGreater(a, b) || StrGreater(b, a)
    decreases |a|
  {
    if a != [] && b != [] && a[0] == b[0] {
      assert a == [a[0]] + a[1..] && b == [b[0]] + b[1..];
      StrGreaterTotal(a[1..], b[1..]);
    }
  }

  /** The collision callback's decision whether this client is the
      aggressor and reports the hit: not while the hit cooldown runs;
      after it, when this client moved recently, or else when its own id
      is the greater one. */
  function IAmAggressor(now: int, lastMovementTime: int, lastHitTime: int,
                        myId: string, otherId: string): (r: bool)
    ensures r ==> now - lastHitTime > HitCooldown
    ensures now - lastHitTime > HitCooldown && now - lastMovementTime < MoveWindow ==> r
    ensures now - lastMovementTime >= MoveWindow ==> (r <==> now - lastHitTime > HitCooldown && StrGreater(myId, otherId))
  {
    var myRecentlyMoved := now - lastMovementTime < MoveWindow;
    var cooldownOk := now - lastHitTime > HitCooldown;
    if myRecentlyMoved && cooldownOk then true
    else if !myRecentlyMoved && cooldownOk then StrGreater(myId, otherId)
    else false
  }

  /** Two stationary players with distinct ids whose cooldowns are over:
      exactly one of the two sides reports the hit. */
  lemma ExactlyOneStationarySideSends(idA: string, idB: string,
                                      nowA: int, movedA: int, hitA: int,
                                      nowB: int, movedB: int, hitB: int)
    requires idA != idB
    requires nowA - movedA >= MoveWindow && nowA - hitA > HitCooldown
    requires nowB - movedB >= MoveWindow && nowB - hitB > HitCooldown
    ensures IAmAggressor(nowA, movedA, hitA, idA, idB) != IAmAggressor(nowB, movedB, hitB, idB, idA)
  {
    StrGreaterAsymmetric(idA, idB);
    StrGreaterTotal(idA, idB);
  }

  /** A player record as the server sends it. */
  datatype PlayerRecord = PlayerRecord(id: string, x: int, y: int, color: int, name: Option<string>)

  /** A `playerMoved` payload; `rotation` may be absent. */
  datatype MovedRecord = MovedRecord(id: string, x: int, y: int, rotation: Option<int>)

  /** A coin record as the server sends it. */
  datatype ItemRecord = ItemRecord(id: string, x: int, y: int)

  datatype Sprite = Sprite(x: int, y: int, rotation: Option<int>, tint: int)
  datatype NameLabel = NameLabel(x: int, y: int, text: string)
  datatype Info = Info(name: string, score: int)
  datatype CoinSprite = CoinSprite(x: int, y: int)

  /** What the client emits to the server. */
  datatype Outgoing =
    | SendMovement(x: int, y: int, rotation: int)
    | SendHeartbeat
    | SendHit(payload: HitPayload)

  /** The display name: the record's own name, else the leaderboard's
      name, else `Anonymous` (an empty string counts as missing). */
  function DisplayName(own: Option<string>, fallback: Option<string>): (n: string)
    ensures n != []
    ensures own.Some? && own.value != [] ==> n == own.value
    ensures (own.None? || own.value == []) && fallback.Some? && fallback.value != [] ==> n == fallback.value
    ensures (own.None? || own.value == []) && (fallback.None? || fallback.value == []) ==> n == "Anonymous"
  {
    if own.Some? && own.value != [] then own.value
    else if fallback.Some? && fallback.value != [] then fallback.value
    else "Anonymous"
  }

  /** The part of the client state that `createPlayer` writes. */
  datatype Roster = Roster(players: map<string, Sprite>, playerInfo: map<string, Info>,
                           playerNames: map<string, NameLabel>, myPlayer: Option<string>,
                           lastHitTime: int)

  /** Every registered id has a sprite, an info record and a label. */
  predicate Synced(r: Roster)
  {
    r.players.Keys == r.playerInfo.Keys && r.players.Keys == r.playerNames.Keys
  }

  /** `createPlayer` for record `p`: sprite, info and label for `p.id`,
      written over whatever that id had; creating one's own player arms
      the collision handling, which resets the hit clock. */
  function Created(r: Roster, p: PlayerRecord, isMyPlayer: bool, fallbackName: Option<string>): Roster
  {
    var name := DisplayName(p.name, fallbackName);
    Roster(r.players[p.id := Sprite(p.x, p.y, None, p.color)],
           r.playerInfo[p.id := Info(name, 0)],
           r.playerNames[p.id := NameLabel(p.x, p.y - LabelOffset, name)],
           if isMyPlayer then Some(p.id) else r.myPlayer,
           if isMyPlayer then 0 else r.lastHitTime)
  }

  /** `createPlayer` registers `p.id` in all three maps and nothing else,
      so maps in step stay in step. */
  lemma CreatedKeys(r: Roster, p: PlayerRecord, isMyPlayer: bool, fallbackName: Option<string>)
    ensures var c := Created(r, p, isMyPlayer, fallbackName);
      && c.players.Keys == r.players.Keys + {p.id}
      && c.playerInfo.Keys == r.playerInfo.Keys + {p.id}
      && c.playerNames.Keys == r.playerNames.Keys + {p.id}
      && (Synced(r) ==> Synced(c))
  {
  }

  /** The entries `createPlayer` writes: a fresh sprite, a zero score
      under a non-empty name and a label above the sprite; every other
      id keeps what it had. */
  lemma CreatedEntries(r: Roster, p: PlayerRecord, isMyPlayer: bool, fallbackName: Option<string>)
    ensures var c := Created(r, p, isMyPlayer, fallbackName);
      && c.players[p.id] == Sprite(p.x, p.y, None, p.color)
      && c.playerInfo[p.id].score == 0 && c.playerInfo[p.id].name != []
      && c.playerNames[p.id] == NameLabel(p.x, p.y - LabelOffset, c.playerInfo[p.id].name)
      && (forall k :: k in r.players && k != p.id ==> c.players[k] == r.players[k])
      && (forall k :: k in r.playerInfo && k != p.id ==> c.playerInfo[k] == r.playerInfo[k])
      && (forall k :: k in r.playerNames && k != p.id ==> c.playerNames[k] == r.playerNames[k])
  {
  }

  /** Creating one's own player arms the collision handling, which resets
      the hit clock; creating a peer leaves both alone. */
  lemma CreatedArms(r: Roster, p: PlayerRecord, isMyPlayer: bool, fallbackName: Option<string>)
    ensures var c := Created(r, p, isMyPlayer, fallbackName);
      && (isMyPlayer ==> c.myPlayer == Some(p.id) && c.lastHitTime == 0)
      && (!isMyPlayer ==> c.myPlayer == r.myPlayer && c.lastHitTime == r.lastHitTime)
  {
  }

  /** `currentPlayers`: `createPlayer` for each record in turn, the
      record whose id is this client's own as its own player. */
  function CreatedAll(r: Roster, records: seq<PlayerRecord>, myId: string, fallbackName: Option<string>): Roster
    decreases |records|
  {
    if records == [] then r
    else
      var last := records[|records| - 1];
      Created(CreatedAll(r, records[..|records| - 1], myId, fallbackName), last, last.id == myId, fallbackName)
  }

  lemma CreatedAllStep(r: Roster, records: seq<PlayerRecord>, i: nat, myId: string, fallbackName: Option<string>)
    requires i < |records|
    ensures CreatedAll(r, records[..i + 1], myId, fallbackName)
         == Created(CreatedAll(r, records[..i], myId, fallbackName), records[i], records[i].id == myId, fallbackName)
  {
    assert records[..i + 1][..i] == records[..i];
  }

  /** The ids a list of player records carries. */
  ghost function PlayerIds(records: seq<PlayerRecord>): set<string>
  {
    set i | 0 <= i < |records| :: records[i].id
  }

  lemma PlayerIdsDropLast(records: seq<PlayerRecord>)
    requires records != []
    ensures PlayerIds(records) == PlayerIds(records[..|records| - 1]) + {records[|records| - 1].id}
  {
    var init := records[..|records| - 1];
    forall k | k in PlayerIds(records)
      ensures k in PlayerIds(init) + {records[|records| - 1].id}
    {
      var i :| 0 <= i < |records| && records[i].id == k;
      if i < |records| - 1 {
        assert init[i].id == k;
      }
    }
    forall k | k in PlayerIds(init)
      ensures k in PlayerIds(records)
    {
      var i :| 0 <= i < |init| && init[i].id == k;
      assert records[i].id == k;
    }
  }

  /** After `currentPlayers` exactly the announced ids have been added to
      each of the three maps, and the maps stay in step. */
  lemma {:induction false} CurrentPlayersRegistersAll(r: Roster, records: seq<PlayerRecord>,
                                                      myId: string, fallbackName: Option<string>)
    ensures CreatedAll(r, records, myId, fallbackName).players.Keys == r.players.Keys + PlayerIds(records)
    ensures CreatedAll(r, records, myId, fallbackName).playerInfo.Keys == r.playerInfo.Keys + PlayerIds(records)
    ensures CreatedAll(r, records, myId, fallbackName).playerNames.Keys == r.playerNames.Keys + PlayerIds(records)
    ensures Synced(r) ==> Synced(CreatedAll(r, records, myId, fallbackName))
    decreases |records|
  {
    if records != [] {
      var init := records[..|records| - 1];
      var last := records[|records| - 1];
      PlayerIdsDropLast(records);
      CurrentPlayersRegistersAll(r, init, myId, fallbackName);
      CreatedKeys(CreatedAll(r, init, myId, fallbackName), last, last.id == myId, fallbackName);
    }
  }

  /** When the announced records include this client's own id, the
      client ends up with its own player and a reset hit clock. */
  lemma {:induction false} CurrentPlayersFindsOwnPlayer(r: Roster, records: seq<PlayerRecord>,
                                                        myId: string, fallbackName: Option<string>)
    requires myId in PlayerIds(records)
    ensures CreatedAll(r, records, myId, fallbackName).myPlayer == Some(myId)
    ensures CreatedAll(r, records, myId, fallbackName).lastHitTime == 0
    decreases |records|
  {
    var init := records[..|records| - 1];
    var last := records[|records| - 1];
    PlayerIdsDropLast(records);
    CreatedArms(CreatedAll(r, init, myId, fallbackName), last, last.id == myId, fallbackName);
    if last.id != myId {
      CurrentPlayersFindsOwnPlayer(r, init, myId, fallbackName);
    }
  }

  /** `gameState`: `createItem` for each coin in turn. */
  function PlacedAll(m: map<string, CoinSprite>, records: seq<ItemRecord>): map<string, CoinSprite>
    decreases |records|
  {
    if records == [] then m
    else
      var last := records[|records| - 1];
      PlacedAll(m, records[..|records| - 1])[last.id := CoinSprite(last.x, last.y)]
  }

  /** The ids a list of coin records carries. */
  ghost function ItemIds(records: seq<ItemRecord>): set<string>
  {
    set i | 0 <= i < |records| :: records[i].id
  }

  lemma ItemIdsDropLast(records: seq<ItemRecord>)
    requires records != []
    ensures ItemIds(records) == ItemIds(records[..|records| - 1]) + {records[|records| - 1].id}
  {
    var init := records[..|records| - 1];
    forall k | k in ItemIds(records)
      ensures k in ItemIds(init) + {records[|records| - 1].id}
    {
      var i :| 0 <= i < |records| && records[i].id == k;
      if i < |records| - 1 {
        assert init[i].id == k;
      }
    }
    forall k | k in ItemIds(init)
      ensures k in ItemIds(records)
    {
      var i :| 0 <= i < |init| && init[i].id == k;
      assert records[i].id == k;
    }
  }

  /** After `gameState` exactly the announced coin ids have been added,
      and coins with other ids are untouched. */
  lemma {:induction false} GameStatePlacesAll(m: map<string, CoinSprite>, records: seq<ItemRecord>)
    ensures PlacedAll(m, records).Keys == m.Keys + ItemIds(records)
    ensures forall k :: k in m && k !in ItemIds(records) ==> PlacedAll(m, records)[k] == m[k]
    decreases |records|
  {
    if records != [] {
      ItemIdsDropLast(records);
      GameStatePlacesAll(m, records[..|records| - 1]);
    }
  }

  /** The client scene's state. `myId` is this client's socket id. Each
      handler's `modifies` clause names exactly the fields it may write. */
  class ClientScene {
    const myId: string
    var players: map<string, Sprite>
    var items: map<string, CoinSprite>
    var playerNames: map<string, NameLabel>
    var playerInfo: map<string, Info>
    /** The id whose sprite is this client's own, once it exists. */
    var myPlayer: Option<string>
    var score: int
    var lives: int
    var hitCount: int
    var coinsToLife: int
    var isMoving: bool
    var lastHitTime: int
    var lastMovementTime: int
    var lastMoveTime: int
    var lastHeartbeat: int
    /** Every message emitted to the server so far, in order. */
    var sent: seq<Outgoing>

    function View(): Roster
      reads this
    {
      Roster(players, playerInfo, playerNames, myPlayer, lastHitTime)
    }

    constructor (socketId: string)
      ensures myId == socketId
      ensures players == map[] && items == map[] && playerNames == map[] && playerInfo == map[]
      ensures myPlayer == None && score == 0 && lives == 3 && hitCount == 0 && coinsToLife == 100
      ensures !isMoving && lastHitTime == 0 && lastMovementTime == 0 && lastMoveTime == 0 && lastHeartbeat == 0
      ensures sent == []
      ensures Synced(View())
    {
      myId := socketId;
      players, items, playerNames, playerInfo := map[], map[], map[], map[];
      myPlayer, score, lives, hitCount, coinsToLife := None, 0, 3, 0, 100;
      isMoving := false;
      lastHitTime, lastMovementTime, lastMoveTime, lastHeartbeat := 0, 0, 0, 0;
      sent := [];
    }

    /** `createPlayer`. `fallbackName` is the leaderboard's player name,
        if there is one. */
    method CreatePlayer(p: PlayerRecord, isMyPlayer: bool, fallbackName: Option<string>)
      modifies this`players, this`playerInfo, this`playerNames, this`myPlayer, this`lastHitTime
      ensures View() == Created(old(View()), p, isMyPlayer, fallbackName)
    {
      var playerName := DisplayName(p.name, fallbackName);
      players, playerInfo, playerNames :=
        players[p.id := Sprite(p.x, p.y, None, p.color)],
        playerInfo[p.id := Info(playerName, 0)],
        playerNames[p.id := NameLabel(p.x, p.y - LabelOffset, playerName)];
      if isMyPlayer {
        myPlayer := Some(p.id);
        lastHitTime := 0;
      }
    }

    /** `currentPlayers`: the players already in the game, in key order. */
    method OnCurrentPlayers(records: seq<PlayerRecord>, fallbackName: Option<string>)
      modifies this`players, this`playerInfo, this`playerNames, this`myPlayer, this`lastHitTime
      ensures View() == CreatedAll(old(View()), records, myId, fallbackName)
    {
      ghost var start := View();
      var i := 0;
      while i < |records|
        invariant 0 <= i <= |records|
        invariant View() == CreatedAll(start, records[..i], myId, fallbackName)
      {
        CreatedAllStep(start, records, i, myId, fallbackName);
        CreatePlayer(records[i], records[i].id == myId, fallbackName);
        i := i + 1;
      }
      assert records[..i] == records;
    }

    /** `newPlayer`: create the player only if the id is not known yet. */
    method OnNewPlayer(p: PlayerRecord, fallbackName: Option<string>)
      modifies this`players, this`playerInfo, this`playerNames, this`myPlayer, this`lastHitTime
      ensures p.id in old(players) ==> View() == old(View())
      ensures p.id !in old(players) ==> View() == Created(old(View()), p, false, fallbackName)
    {
      if p.id !in players {
        CreatePlayer(p, false, fallbackName);
      }
    }

    /** `playerMoved`: move a known peer and its label; reports about this
        client's own id and about unknown ids are ignored. */
    method OnPlayerMoved(m: MovedRecord)
      modifies this`players, this`playerNames
      ensures m.id !in old(players) || m.id == myId ==>
        players == old(players) && playerNames == old(playerNames)
      ensures m.id in old(players) && m.id != myId ==>
        && players == old(players)[m.id := Sprite(m.x, m.y,
             if m.rotation.Some? then m.rotation else old(players)[m.id].rotation,
             old(players)[m.id].tint)]
        && playerNames == (if m.id in old(playerNames)
                           then old(playerNames)[m.id := old(playerNames)[m.id].(x := m.x, y := m.y - LabelOffset)]
                           else old(playerNames))
      ensures old(Synced(View())) ==> Synced(View())
    {
      if m.id in players && m.id != myId {
        var sprite := players[m.id].(x := m.x, y := m.y);
        if m.rotation.Some? {
          sprite := sprite.(rotation := m.rotation);
        }
        players := players[m.id := sprite];
        if m.id in playerNames {
          playerNames := playerNames[m.id := playerNames[m.id].(x := m.x, y := m.y - LabelOffset)];
        }
      }
    }

    /** `playerNameChanged`: the new name goes into the info record and
        the label of the id, where those exist. */
    method OnPlayerNameChanged(playerId: string, newName: string)
      modifies this`playerInfo, this`playerNames
      ensures playerInfo == if playerId in old(playerInfo)
                            then old(playerInfo)[playerId := old(playerInfo)[playerId].(name := newName)]
                            else old(playerInfo)
      ensures playerNames == if playerId in old(playerNames)
                             then old(playerNames)[playerId := old(playerNames)[playerId].(text := newName)]
                             else old(playerNames)
      ensures old(Synced(View())) ==> Synced(View())
    {
      if playerId in playerInfo {
        playerInfo := playerInfo[playerId := playerInfo[playerId].(name := newName)];
      }
      if playerId in playerNames {
        playerNames := playerNames[playerId := playerNames[playerId].(text := newName)];
      }
    }

    /** `playerDisconnected`: a known id loses its sprite, label and
        info; an unknown id changes nothing. */
    method OnPlayerDisconnected(id: string)
      modifies this`players, this`playerNames, this`playerInfo
      ensures id !in old(players) ==>
        players == old(players) && playerNames == old(playerNames) && playerInfo == old(playerInfo)
      ensures id in old(players) ==>
        && players == old(players) - {id}
        && playerNames == old(playerNames) - {id}
        && playerInfo == old(playerInfo) - {id}
      ensures old(Synced(View())) ==> Synced(View())
    {
      if id in players {
        players := players - {id};
        if id in playerNames {
          playerNames := playerNames - {id};
        }
        if id in playerInfo {
          playerInfo := playerInfo - {id};
        }
      }
    }

    /** `createItem`: exactly one coin for the id, replacing any earlier one. */
    method CreateItem(data: ItemRecord)
      modifies this`items
      ensures items == old(items)[data.id := CoinSprite(data.x, data.y)]
    {
      if data.id in items {
        items := items - {data.id};
      }
      items := items[data.id := CoinSprite(data.x, data.y)];
    }

    /** `gameState`: the current coin pool, in array order. */
    method OnGameState(records: seq<ItemRecord>)
      modifies this`items
      ensures items == PlacedAll(old(items), records)
    {
      var i := 0;
      while i < |records|
        invariant 0 <= i <= |records|
        invariant items == PlacedAll(old(items), records[..i])
      {
        assert records[..i + 1][..i] == records[..i];
        CreateItem(records[i]);
        i := i + 1;
      }
      assert records[..i] == records;
    }

    /** `itemCollected`: drop the collected coin if it is here, then
        create the replacement the server announced. */
    method OnItemCollected(itemId: string, newItem: Option<ItemRecord>)
      modifies this`items
      ensures newItem.None? ==> items == old(items) - {itemId}
      ensures newItem.Some? ==>
        items == (old(items) - {itemId})[newItem.value.id := CoinSprite(newItem.value.x, newItem.value.y)]
      ensures newItem.Some? ==> newItem.value.id in items
      ensures newItem.None? || newItem.value.id != itemId ==> itemId !in items
    {
      if itemId in items {
        items := items - {itemId};
      }
      if newItem.Some? {
        CreateItem(newItem.value);
      }
    }

    /** `scoreUpdate`: only an update for this client's own id counts. */
    method OnScoreUpdate(playerId: string, newScore: int)
      modifies this`score
      ensures score == if playerId == myId then newScore else old(score)
    {
      if playerId == myId {
        score := newScore;
      }
    }

    /** `healthUpdate`: only an update for this client's own id counts. */
    method OnHealthUpdate(playerId: string, newLives: int, newHitCount: int, newCoinsToLife: int)
      modifies this`lives, this`hitCount, this`coinsToLife
      ensures playerId == myId ==>
        lives == newLives && hitCount == newHitCount && coinsToLife == newCoinsToLife
      ensures playerId != myId ==>
        lives == old(lives) && hitCount == old(hitCount) && coinsToLife == old(coinsToLife)
    {
      if playerId == myId {
        lives := newLives;
        hitCount := newHitCount;
        coinsToLife := newCoinsToLife;
      }
    }

    /** The collider callback for contact with peer `otherId` at time
        `now`: the aggressor sends `playerHit` with the object payload
        `{ targetPlayerId }` and restarts its hit clock, so a second
        contact at the same instant sends nothing. */
    method OnPlayerCollision(otherId: string, now: int)
      modifies this`sent, this`lastHitTime
      ensures IAmAggressor(now, lastMovementTime, old(lastHitTime), myId, otherId) ==>
        sent == old(sent) + [SendHit(TargetObject(otherId))] && lastHitTime == now
      ensures !IAmAggressor(now, lastMovementTime, old(lastHitTime), myId, otherId) ==>
        sent == old(sent) && lastHitTime == old(lastHitTime)
      ensures !IAmAggressor(now, lastMovementTime, lastHitTime, myId, otherId)
    {
      if IAmAggressor(now, lastMovementTime, lastHitTime, myId, otherId) {
        sent := sent + [SendHit(TargetObject(otherId))];
        lastHitTime := now;
      }
    }

    /** The per-frame `update` at time `now`. `moving` says whether the
        input gave a non-zero velocity; `x`, `y` and `rotation` are where
        the physics engine put this client's player. Nothing happens
        before that player exists. The movement packet is throttled to
        one per 16 ms and the heartbeat to one per 5 s, the first one
        going out at once. */
    method Update(now: int, moving: bool, x: int, y: int, rotation: int)
      modifies this`isMoving, this`lastMovementTime, this`lastMoveTime, this`lastHeartbeat, this`sent
      ensures myPlayer.None? ==>
        && sent == old(sent) && isMoving == old(isMoving) && lastMovementTime == old(lastMovementTime)
        && lastMoveTime == old(lastMoveTime) && lastHeartbeat == old(lastHeartbeat)
      ensures myPlayer.Some? ==>
        var sendMove := now - old(lastMoveTime) > MoveThrottle;
        var sendBeat := old(lastHeartbeat) == 0 || now - old(lastHeartbeat) > HeartbeatInterval;
        && isMoving == moving
        && lastMovementTime == (if moving then now else old(lastMovementTime))
        && lastMoveTime == (if sendMove then now else old(lastMoveTime))
        && lastHeartbeat == (if sendBeat then now else old(lastHeartbeat))
        && sent == old(sent) + (if sendMove then [SendMovement(x, y, rotation)] else [])
                             + (if sendBeat then [SendHeartbeat] else [])
    {
      if myPlayer.None? {
        return;
      }
      isMoving := moving;
      if moving {
        lastMovementTime := now;
      }
      if now - lastMoveTime > MoveThrottle {
        sent := sent + [SendMovement(x, y, rotation)];
        lastMoveTime := now;
      }
      if lastHeartbeat == 0 || now - lastHeartbeat > HeartbeatInterval {
        sent := sent + [SendHeartbeat];
        lastHeartbeat := now;
      }
    }
  }
}
