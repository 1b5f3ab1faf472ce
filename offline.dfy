/** The single-player game's coin pool: a map of coins keyed by id, a
    score, and the replacements scheduled after each collection. */
module OfflineGame {

  /** How many coins the scene spawns at the start. */
  const MaxItems: nat := 15
  /** What one coin is worth. */
  const CoinReward: int := 10
  /** The spawn rectangle. */
  const MinX: int := 50
  const MaxX: int := 1150
  const MinY: int := 50
  const MaxY: int := 850

  /** A coin id `item_<clock>_<random>`: the clock reading and the random
      fraction it was built from. */
  datatype CoinId = CoinId(clock: int, nonce: nat)

  datatype Coin = Coin(x: int, y: int)

  /** What one `createItem` call draws from the clock and the random
      source: two raw draws for the coordinates and the id. */
  datatype Draw = Draw(xDraw: nat, yDraw: nat, id: CoinId)

  /** `Phaser.Math.Between(min, max)` for the raw random draw `r`. */
  function Between(min: int, max: int, r: nat): (v: int)
    requires min <= max
    ensures min <= v <= max
  {
    min + r % (max - min + 1)
  }

  /** The coin `createItem` places for draw `d`; it lies inside the
      spawn rectangle whatever the draw. */
  function SpawnCoin(d: Draw): (c: Coin)
    ensures MinX <= c.x <= MaxX && MinY <= c.y <= MaxY
  {
    Coin(Between(MinX, MaxX, d.xDraw), Between(MinY, MaxY, d.yDraw))
  }

  ghost predicate AllInArena(items: map<CoinId, Coin>)
  {
    forall id :: id in items ==> MinX <= items[id].x <= MaxX && MinY <= items[id].y <= MaxY
  }

  /** The pool after `createItem` for the draws `gen(0)`, ..., `gen(n - 1)`. */
  function Spawned(items: map<CoinId, Coin>, gen: nat -> Draw, n: nat): map<CoinId, Coin>
  {
    if n == 0 then items
    else Spawned(items, gen, n - 1)[gen(n - 1).id := SpawnCoin(gen(n - 1))]
  }

  /** The ids the first `n` draws carry. */
  ghost function DrawnIds(gen: nat -> Draw, n: nat): set<CoinId>
  {
    set i | 0 <= i < n :: gen(i).id
  }

  /** Distinct draws whose ids are all new to the pool. */
  ghost predicate FreshIds(items: map<CoinId, Coin>, gen: nat -> Draw, n: nat)
  {
    && (forall i :: 0 <= i < n ==> gen(i).id !in items)
    && (forall i, j :: 0 <= i < j < n ==> gen(i).id != gen(j).id)
  }

  lemma DrawnIdsStep(gen: nat -> Draw, n: nat)
    requires n > 0
    ensures DrawnIds(gen, n) == DrawnIds(gen, n - 1) + {gen(n - 1).id}
  {
    forall k | k in DrawnIds(gen, n)
      ensures k in DrawnIds(gen, n - 1) + {gen(n - 1).id}
    {
      var i :| 0 <= i < n && gen(i).id == k;
      if i < n - 1 {
        assert k in DrawnIds(gen, n - 1);
      }
    }
  }

  /** Spawning adds exactly the drawn ids. */
  lemma {:induction false} SpawnedKeys(items: map<CoinId, Coin>, gen: nat -> Draw, n: nat)
    ensures Spawned(items, gen, n).Keys == items.Keys + DrawnIds(gen, n)
  {
    if n > 0 {
      DrawnIdsStep(gen, n);
      SpawnedKeys(items, gen, n - 1);
    }
  }

  /** Spawning keeps every coin already there untouched unless its id
      is drawn again, and every spawned coin lies in the spawn rectangle. */
  lemma {:induction false} SpawnedKeepsOthers(items: map<CoinId, Coin>, gen: nat -> Draw, n: nat)
    ensures forall id :: id in items && id !in DrawnIds(gen, n) ==> id in Spawned(items, gen, n) && Spawned(items, gen, n)[id] == items[id]
    ensures AllInArena(items) ==> AllInArena(Spawned(items, gen, n))
  {
    if n > 0 {
      DrawnIdsStep(gen, n);
      SpawnedKeepsOthers(items, gen, n - 1);
    }
  }

  /** Distinct draws carry as many ids as there are draws. */
  lemma {:induction false} DistinctDrawnIds(gen: nat -> Draw, n: nat)
    requires forall i, j :: 0 <= i < j < n ==> gen(i).id != gen(j).id
    ensures |DrawnIds(gen, n)| == n
  {
    if n > 0 {
      DrawnIdsStep(gen, n);
      DistinctDrawnIds(gen, n - 1);
      assert gen(n - 1).id !in DrawnIds(gen, n - 1);
    }
  }

  /** With fresh, distinct ids the pool grows by exactly `n` coins. */
  lemma SpawnedSize(items: map<CoinId, Coin>, gen: nat -> Draw, n: nat)
    requires FreshIds(items, gen, n)
    ensures |Spawned(items, gen, n)| == |items| + n
  {
    SpawnedKeys(items, gen, n);
    DistinctDrawnIds(gen, n);
    assert items.Keys !! DrawnIds(gen, n);
    assert |Spawned(items, gen, n).Keys| == |items.Keys| + |DrawnIds(gen, n)|;
  }

  class OfflineScene {
    var items: map<CoinId, Coin>
    var score: int
    /** Delayed `createItem` calls scheduled by a collection and not yet run. */
    var pending: nat

    /** Every coin lies in the spawn rectangle. */
    ghost predicate InArena()
      reads this
    {
      AllInArena(items)
    }

    /** The coins on the field and the scheduled replacements add up to
        the pool size. */
    ghost predicate Balanced()
      reads this
    {
      |items| + pending == MaxItems
    }

    constructor ()
      ensures items == map[] && score == 0 && pending == 0
      ensures InArena()
    {
      items, score, pending := map[], 0, 0;
    }

    /** `createItem`: one coin for the drawn id. */
    method CreateItem(d: Draw)
      modifies this
      ensures items == old(items)[d.id := SpawnCoin(d)]
      ensures score == old(score) && pending == old(pending)
      ensures old(InArena()) ==> InArena()
    {
      items := items[d.id := SpawnCoin(d)];
    }

    /** `generateItems`: `createItem` `MaxItems` times, the i-th call
        drawing `gen(i)`. */
    method GenerateItems(gen: nat -> Draw)
      modifies this
      ensures items == Spawned(old(items), gen, MaxItems)
      ensures items.Keys == old(items).Keys + DrawnIds(gen, MaxItems)
      ensures FreshIds(old(items), gen, MaxItems) ==> |items| == |old(items)| + MaxItems
      ensures old(items) == map[] && old(pending) == 0 && FreshIds(old(items), gen, MaxItems) ==> Balanced()
      ensures old(InArena()) ==> InArena()
      ensures score == old(score) && pending == old(pending)
    {
      for i := 0 to MaxItems
        invariant items == Spawned(old(items), gen, i)
        invariant score == old(score) && pending == old(pending)
      {
        CreateItem(gen(i));
      }
      SpawnedKeys(old(items), gen, MaxItems);
      SpawnedKeepsOthers(old(items), gen, MaxItems);
      if FreshIds(old(items), gen, MaxItems) {
        SpawnedSize(old(items), gen, MaxItems);
      }
    }

    /** `collectItem`: an unknown id changes nothing; a known one is
        removed, scores ten and schedules one replacement. */
    method CollectItem(id: CoinId)
      modifies this
      ensures id !in old(items) ==>
        items == old(items) && score == old(score) && pending == old(pending)
      ensures id in old(items) ==>
        && items == old(items) - {id}
        && |items| == |old(items)| - 1
        && score == old(score) + CoinReward
        && pending == old(pending) + 1
      ensures old(InArena()) ==> InArena()
      ensures old(Balanced()) ==> Balanced()
    {
      if id !in items {
        return;
      }
      items := items - {id};
      score := score + CoinReward;
      pending := pending + 1;
    }

    /** The delayed `createItem` of an earlier collection fires. */
    method FireReplacement(d: Draw)
      requires pending > 0
      modifies this
      ensures items == old(items)[d.id := SpawnCoin(d)]
      ensures score == old(score) && pending == old(pending) - 1
      ensures old(InArena()) ==> InArena()
      ensures d.id !in old(items) && old(Balanced()) ==> Balanced()
    {
      CreateItem(d);
      pending := pending - 1;
    }
  }
}
