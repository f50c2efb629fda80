/**
 * Weber Catcher: a kettle at the bottom of the canvas catches falling coal,
 * steaks, ice and propane tanks. Coal heats the grill, a hot grill doubles a
 * steak's points, ice cools it and costs points, a propane tank ends the game.
 *
 * Positions, speeds, heat and times are exact reals. Randomness is a parameter:
 * each spawn consumes four draws in [0, 1).
 */
module Weber {

  datatype ItemType = Coal | Steak | Ice | Propane
  datatype GameState = Start | Playing | GameOver

  const KettleWidth: real := 80.0
  const KettleHeight: real := 60.0
  const KettleBottomMargin: real := 30.0
  const KettleSpeed: real := 7.0
  const KettleEasing: real := 0.15
  const BaseFallSpeed: real := 2.0
  const SpeedIncrement: real := 0.4
  const SpeedMilestone: int := 25
  const MaxHeat: real := 100.0
  const HeatPerCoal: real := 12.0
  const IceCooling: real := 30.0
  const HeatDrainRate: real := 0.15
  const SpawnIntervalBase: int := 900
  const SpawnIntervalMin: int := 350
  const SpawnIntervalStep: int := 50
  const SpawnJitter: real := 300.0
  const MaxFrameMillis: real := 50.0

  /** One row of the item table: selection weight, points, sprite size. */
  datatype ItemConfig = ItemConfig(kind: ItemType, weight: nat, points: int, w: real, h: real)

  /** The item table, in declaration order (the order the weighted selection walks). */
  const Configs: seq<ItemConfig> := [
    ItemConfig(Coal, 60, 1, 24.0, 22.0),
    ItemConfig(Steak, 12, 10, 36.0, 28.0),
    ItemConfig(Ice, 20, -5, 22.0, 22.0),
    ItemConfig(Propane, 8, 0, 30.0, 40.0)
  ]

  function Config(t: ItemType): (c: ItemConfig)
    ensures c in Configs && c.kind == t
  {
    match t
    case Coal => Configs[0]
    case Steak => Configs[1]
    case Ice => Configs[2]
    case Propane => Configs[3]
  }

  // ---------------------------------------------------------------------
  // pickItemType

  function TotalWeight(cfgs: seq<ItemConfig>): nat
  {
    if cfgs == [] then 0 else cfgs[0].weight + TotalWeight(cfgs[1..])
  }

  lemma TotalWeightIs100()
    ensures TotalWeight(Configs) == 100
  {
    assert Configs[1..][1..][1..][1..] == [];
  }

  /** The walk of `pickItemType` from draw `r`: subtract weights until `r <= 0`, falling back to coal. */
  function Select(r: real, cfgs: seq<ItemConfig>): ItemType
  {
    if cfgs == [] then Coal
    else if r - cfgs[0].weight as real <= 0.0 then cfgs[0].kind
    else Select(r - cfgs[0].weight as real, cfgs[1..])
  }

  /** The weight of the rows up to and including row `k`. */
  function Cumulative(cfgs: seq<ItemConfig>, k: nat): nat
    requires k < |cfgs|
  {
    TotalWeight(cfgs[..k + 1])
  }

  lemma CumulativeCons(cfgs: seq<ItemConfig>, k: nat)
    requires k < |cfgs|
    ensures Cumulative(cfgs, k) == cfgs[0].weight + (if k == 0 then 0 else Cumulative(cfgs[1..], k - 1))
  {
    var p := cfgs[..k + 1];
    assert p[0] == cfgs[0] && p[1..] == cfgs[1..][..k];
    assert TotalWeight(p) == p[0].weight + TotalWeight(p[1..]);
    if k == 0 {
      assert p[1..] == [];
    }
  }

  /** The selection is the first row, in order, whose cumulative weight reaches the draw. */
  lemma {:induction false} SelectFirstReaching(r: real, cfgs: seq<ItemConfig>, k: nat)
    requires k < |cfgs|
    requires r <= Cumulative(cfgs, k) as real
    requires forall j :: 0 <= j < k ==> r > Cumulative(cfgs, j) as real
    ensures Select(r, cfgs) == cfgs[k].kind
  {
    CumulativeCons(cfgs, 0);
    if k > 0 {
      var r' := r - cfgs[0].weight as real;
      CumulativeCons(cfgs, k);
      forall j | 0 <= j < k - 1
        ensures r' > Cumulative(cfgs[1..], j) as real
      {
        CumulativeCons(cfgs, j + 1);
      }
      SelectFirstReaching(r', cfgs[1..], k - 1);
    }
  }

  /** A draw beyond the total weight falls through every row to the coal fallback. */
  lemma {:induction false} SelectFallback(r: real, cfgs: seq<ItemConfig>)
    requires r > TotalWeight(cfgs) as real
    ensures Select(r, cfgs) == Coal
  {
    if cfgs != [] {
      SelectFallback(r - cfgs[0].weight as real, cfgs[1..]);
    }
  }

  /** The bands of the scaled draw: each type owns an interval as wide as its weight. */
  lemma PickBands(r: real)
    ensures r <= 60.0 ==> Select(r, Configs) == Coal
    ensures 60.0 < r <= 72.0 ==> Select(r, Configs) == Steak
    ensures 72.0 < r <= 92.0 ==> Select(r, Configs) == Ice
    ensures 92.0 < r <= 100.0 ==> Select(r, Configs) == Propane
    ensures 100.0 < r ==> Select(r, Configs) == Coal
  {
    CumulativeCons(Configs, 0);
    CumulativeCons(Configs, 1);
    CumulativeCons(Configs[1..], 0);
    CumulativeCons(Configs, 2);
    CumulativeCons(Configs[1..], 1);
    CumulativeCons(Configs[1..][1..], 0);
    CumulativeCons(Configs, 3);
    CumulativeCons(Configs[1..], 2);
    CumulativeCons(Configs[1..][1..], 1);
    CumulativeCons(Configs[1..][1..][1..], 0);
    TotalWeightIs100();
    if r <= 60.0 {
      SelectFirstReaching(r, Configs, 0);
    } else if r <= 72.0 {
      SelectFirstReaching(r, Configs, 1);
    } else if r <= 92.0 {
      SelectFirstReaching(r, Configs, 2);
    } else if r <= 100.0 {
      SelectFirstReaching(r, Configs, 3);
    } else {
      SelectFallback(r, Configs);
    }
  }

  /** `pickItemType`: scale the draw by the total weight and subtract weights in order. */
  method PickItemType(u: real) returns (t: ItemType)
    ensures t == Select(u * TotalWeight(Configs) as real, Configs)
  {
    var r := u * TotalWeight(Configs) as real;
    var i := 0;
    while i < |Configs|
      invariant 0 <= i <= |Configs|
      invariant Select(r, Configs[i..]) == Select(u * TotalWeight(Configs) as real, Configs)
    {
      assert Configs[i..][1..] == Configs[i + 1..];
      r := r - Configs[i].weight as real;
      if r <= 0.0 {
        return Configs[i].kind;
      }
      i := i + 1;
    }
    return Coal;
  }

  /** The type picked for a draw `u` in [0, 1): the coal fallback is never reached. */
  function PickedType(u: real): ItemType
  {
    Select(u * 100.0, Configs)
  }

  lemma PickedTypeBands(u: real)
    requires 0.0 <= u < 1.0
    ensures PickedType(u) == Coal <==> u <= 0.6
    ensures PickedType(u) == Steak <==> 0.6 < u <= 0.72
    ensures PickedType(u) == Ice <==> 0.72 < u <= 0.92
    ensures PickedType(u) == Propane <==> 0.92 < u
  {
    PickBands(u * 100.0);
  }

  // ---------------------------------------------------------------------
  // Catching an item

  /** The points a caught item is worth: its table value, doubled for a steak on a grill at full heat. */
  function CatchPoints(t: ItemType, heat: real): int
  {
    if t == Steak && heat >= MaxHeat then 2 * Config(t).points else Config(t).points
  }

  /** The heat after a catch: coal heats up to the maximum, ice cools down to zero. */
  function CatchHeat(t: ItemType, heat: real): real
  {
    if t == Coal then (if heat + HeatPerCoal < MaxHeat then heat + HeatPerCoal else MaxHeat)
    else if t == Ice then (if heat - IceCooling > 0.0 then heat - IceCooling else 0.0)
    else heat
  }

  /** The score after adding `points`, floored at zero. */
  function AddPoints(score: int, points: int): int
  {
    if score + points < 0 then 0 else score + points
  }

  lemma CatchCoal(score: int, heat: real)
    requires score >= 0
    ensures AddPoints(score, CatchPoints(Coal, heat)) == score + 1
    ensures CatchHeat(Coal, heat) == if heat + 12.0 <= 100.0 then heat + 12.0 else 100.0
  {
  }

  lemma CatchIce(score: int, heat: real)
    ensures AddPoints(score, CatchPoints(Ice, heat)) == if score >= 5 then score - 5 else 0
    ensures CatchHeat(Ice, heat) == if heat >= 30.0 then heat - 30.0 else 0.0
  {
  }

  lemma CatchSteak(score: int, heat: real)
    requires score >= 0
    ensures CatchPoints(Steak, heat) == 20 <==> heat >= 100.0
    ensures CatchPoints(Steak, heat) == 10 <==> heat < 100.0
    ensures AddPoints(score, CatchPoints(Steak, heat)) == score + CatchPoints(Steak, heat)
    ensures CatchHeat(Steak, heat) == heat
  {
  }

  /** A scoring catch keeps the score non-negative and the heat within [0, MaxHeat]. */
  lemma CatchKeepsBounds(t: ItemType, score: int, heat: real)
    requires 0.0 <= heat <= MaxHeat
    ensures AddPoints(score, CatchPoints(t, heat)) >= 0
    ensures 0.0 <= CatchHeat(t, heat) <= MaxHeat
  {
  }

  // ---------------------------------------------------------------------
  // Difficulty and motion

  /** `Math.floor(score / 25)`. */
  function SpeedLevel(score: int): (level: int)
    ensures level * SpeedMilestone <= score < (level + 1) * SpeedMilestone
  {
    score / SpeedMilestone
  }

  function FallSpeed(level: int): real
  {
    BaseFallSpeed + level as real * SpeedIncrement
  }

  function SpawnInterval(level: int): (ms: int)
  {
    var raw := SpawnIntervalBase - level * SpawnIntervalStep;
    if raw > SpawnIntervalMin then raw else SpawnIntervalMin
  }

  /** A higher score never slows the game: the level rises and the spawn interval shrinks to 350 ms from score 275 on. */
  lemma DifficultyMonotone(s1: int, s2: int)
    requires 0 <= s1 <= s2
    ensures 0 <= SpeedLevel(s1) <= SpeedLevel(s2)
    ensures FallSpeed(SpeedLevel(s1)) <= FallSpeed(SpeedLevel(s2))
    ensures SpawnIntervalMin <= SpawnInterval(SpeedLevel(s2)) <= SpawnInterval(SpeedLevel(s1)) <= SpawnIntervalBase
    ensures SpawnInterval(SpeedLevel(s2)) == SpawnIntervalMin <==> s2 >= 275
  {
  }

  /** `Math.max(0, Math.min(W - 80, x))`. */
  function Clamp(x: real, w: real): (r: real)
    ensures 0.0 <= r
    ensures w >= KettleWidth ==> r <= w - KettleWidth
    ensures w < KettleWidth ==> r == 0.0
    ensures 0.0 <= x <= w - KettleWidth ==> r == x
  {
    var m := if w - KettleWidth < x then w - KettleWidth else x;
    if m > 0.0 then m else 0.0
  }

  datatype KettleMove = KettleMove(x: real, mouseX: real)

  /** The kettle update of one frame: ease toward the pointer, step for held arrow keys, clamp. */
  function KettleStep(x: real, mouseX: real, keys: set<string>, w: real): (r: KettleMove)
    ensures 0.0 <= r.x && (w >= KettleWidth ==> r.x <= w - KettleWidth)
    ensures r.mouseX == -1.0 || r.mouseX == mouseX
  {
    var x1 := if mouseX >= 0.0 then x + (mouseX - KettleWidth / 2.0 - x) * KettleEasing else x;
    var left := "ArrowLeft" in keys || "a" in keys;
    var right := "ArrowRight" in keys || "d" in keys;
    var x2 := if left then x1 - KettleSpeed else x1;
    var x3 := if right then x2 + KettleSpeed else x2;
    KettleMove(Clamp(x3, w), if left || right then -1.0 else mouseX)
  }

  /** With the pointer on the canvas and no key held, the kettle closes 15% of the gap to the pointer. */
  lemma KettleEases(x: real, mouseX: real, w: real)
    requires mouseX >= 0.0
    requires var t := mouseX - KettleWidth / 2.0; 0.0 <= x <= w - KettleWidth && 0.0 <= t <= w - KettleWidth
    ensures var t := mouseX - KettleWidth / 2.0;
      t - KettleStep(x, mouseX, {}, w).x == 0.85 * (t - x)
    ensures KettleStep(x, mouseX, {}, w).mouseX == mouseX
  {
    var t := mouseX - KettleWidth / 2.0;
    var x1 := x + (t - x) * KettleEasing;
    assert 0.0 <= x1 <= w - KettleWidth;
  }

  /**
   * A held key moves the kettle 7 px (within the canvas) and hands control back
   * from the pointer: with the pointer active (`m >= 0`) the kettle first eases
   * toward it, then takes the key step, and the pointer is dropped.
   */
  lemma KettleKeys(x: real, m: real, w: real)
    requires 0.0 <= x <= w - KettleWidth
    ensures KettleStep(x, -1.0, {"ArrowLeft"}, w) == KettleMove(if x >= 7.0 then x - 7.0 else 0.0, -1.0)
    ensures KettleStep(x, -1.0, {"d"}, w) == KettleMove(if x + 7.0 <= w - 80.0 then x + 7.0 else w - 80.0, -1.0)
    ensures KettleStep(x, -1.0, {"a", "d"}, w) == KettleMove(x, -1.0)
    ensures var e := if m >= 0.0 then x + (m - 40.0 - x) * 0.15 else x;
      && KettleStep(x, m, {"ArrowLeft"}, w) == KettleMove(Clamp(e - 7.0, w), -1.0)
      && KettleStep(x, m, {"d"}, w) == KettleMove(Clamp(e + 7.0, w), -1.0)
      && KettleStep(x, m, {"a", "d"}, w) == KettleMove(Clamp(e, w), -1.0)
  {
    assert "ArrowRight" !in {"ArrowLeft"} && "d" !in {"ArrowLeft"} && "a" !in {"ArrowLeft"};
    assert "ArrowLeft" !in {"d"} && "a" !in {"d"} && "ArrowRight" !in {"d"};
  }

  /** The heat drain of one frame of `dt` ms, floored at zero. */
  function Drain(heat: real, dt: real): real
  {
    var h := heat - HeatDrainRate * (dt / 16.0);
    if h > 0.0 then h else 0.0
  }

  lemma DrainBounds(heat: real, dt: real)
    requires 0.0 <= dt
    ensures 0.0 <= Drain(heat, dt)
    ensures 0.0 <= heat ==> Drain(heat, dt) <= heat
    ensures heat >= HeatDrainRate * (dt / 16.0) ==> Drain(heat, dt) == heat - HeatDrainRate * (dt / 16.0)
  {
  }

  /** `Math.min(time - lastTime, 50)`. */
  function FrameDelta(last: real, time: real): (dt: real)
    ensures dt <= MaxFrameMillis
    ensures time - last <= MaxFrameMillis ==> dt == time - last
  {
    if time - last < MaxFrameMillis then time - last else MaxFrameMillis
  }

  // ---------------------------------------------------------------------
  // Falling items

  datatype Item = Item(id: nat, kind: ItemType, x: real, y: real, speed: real, width: real, height: real)

  /** One frame of fall. */
  function Move(it: Item, dt: real): (m: Item)
    ensures m.(y := it.y) == it
  {
    it.(y := it.y + it.speed * (dt / 16.0))
  }

  function MoveAll(items: seq<Item>, dt: real): (ms: seq<Item>)
    ensures |ms| == |items|
    ensures forall k :: 0 <= k < |items| ==> ms[k] == Move(items[k], dt)
  {
    seq(|items|, k requires 0 <= k < |items| => Move(items[k], dt))
  }

  predicate OffScreen(it: Item, h: real)
  {
    it.y > h
  }

  /** The catch box of a kettle at `kettleX` on a canvas `h` high, against the item's centre and extent. */
  predicate InCatchBox(it: Item, kettleX: real, h: real)
  {
    var kettleY := h - KettleHeight - KettleBottomMargin;
    var cx := it.x + it.width / 2.0;
    && it.y + it.height >= kettleY + KettleHeight * 0.15
    && it.y <= kettleY + KettleHeight * 0.45
    && cx >= kettleX + KettleWidth * 0.1
    && cx <= kettleX + KettleWidth * 0.9
  }

  /** A moved item neither lost below the canvas nor caught: it keeps falling. */
  predicate Falls(it: Item, kettleX: real, h: real)
  {
    !OffScreen(it, h) && !InCatchBox(it, kettleX, h)
  }

  predicate Caught(it: Item, kettleX: real, h: real)
  {
    !OffScreen(it, h) && InCatchBox(it, kettleX, h)
  }

  /** The outcome of the item pass of one frame. `seen` counts the items the pass looked at. */
  datatype SweepResult = SweepResult(survivors: seq<Item>, score: int, heat: real, boom: bool, seen: nat)

  /**
   * The item pass: move each item; drop it below the canvas; a caught propane
   * tank ends the pass; any other catch scores and is removed; the rest survive.
   */
  function Sweep(items: seq<Item>, kettleX: real, h: real, dt: real, score: int, heat: real): (r: SweepResult)
    ensures r.seen <= |items|
    decreases |items|
  {
    if items == [] then SweepResult([], score, heat, false, 0)
    else
      var it := Move(items[0], dt);
      var rest := items[1..];
      if OffScreen(it, h) then Shift(Sweep(rest, kettleX, h, dt, score, heat), [], 1)
      else if InCatchBox(it, kettleX, h) then
        if it.kind == Propane then SweepResult([], score, heat, true, 1)
        else
          Shift(Sweep(rest, kettleX, h, dt, AddPoints(score, CatchPoints(it.kind, heat)), CatchHeat(it.kind, heat)), [], 1)
      else Shift(Sweep(rest, kettleX, h, dt, score, heat), [it], 1)
  }

  /** `n` more items looked at in front of `r`, of which `kept` survive. */
  function Shift(r: SweepResult, kept: seq<Item>, n: nat): SweepResult
  {
    r.(survivors := kept + r.survivors, seen := n + r.seen)
  }

  lemma ShiftShift(r: SweepResult, kept: seq<Item>, n: nat, kept': seq<Item>, n': nat)
    ensures Shift(Shift(r, kept', n'), kept, n) == Shift(r, kept + kept', n + n')
  {
    assert kept + (kept' + r.survivors) == (kept + kept') + r.survivors;
  }

  /** The pass over `items[i..]` looks at `items[i]` first. */
  lemma SweepFrom(items: seq<Item>, i: nat, kettleX: real, h: real, dt: real, score: int, heat: real)
    requires i < |items|
    ensures var it := Move(items[i], dt);
      var rest := items[i + 1..];
      Sweep(items[i..], kettleX, h, dt, score, heat) ==
        if OffScreen(it, h) then Shift(Sweep(rest, kettleX, h, dt, score, heat), [], 1)
        else if InCatchBox(it, kettleX, h) then
          if it.kind == Propane then SweepResult([], score, heat, true, 1)
          else
            Shift(Sweep(rest, kettleX, h, dt, AddPoints(score, CatchPoints(it.kind, heat)), CatchHeat(it.kind, heat)), [], 1)
        else Shift(Sweep(rest, kettleX, h, dt, score, heat), [it], 1)
  {
    assert items[i..][0] == items[i];
    assert items[i..][1..] == items[i + 1..];
  }

  /** The list after an interrupted pass: the first `n` items moved, the rest untouched. */
  function MovedPrefix(items: seq<Item>, n: nat, dt: real): seq<Item>
    requires n <= |items|
  {
    MoveAll(items[..n], dt) + items[n..]
  }

  /** Reference definitions: the items that keep falling, and the kinds caught, in order. */
  function Falling(items: seq<Item>, kettleX: real, h: real, dt: real): seq<Item>
  {
    if items == [] then []
    else
      var it := Move(items[0], dt);
      (if Falls(it, kettleX, h) then [it] else []) + Falling(items[1..], kettleX, h, dt)
  }

  function CaughtKinds(items: seq<Item>, kettleX: real, h: real, dt: real): seq<ItemType>
  {
    if items == [] then []
    else
      var it := Move(items[0], dt);
      (if Caught(it, kettleX, h) then [it.kind] else []) + CaughtKinds(items[1..], kettleX, h, dt)
  }

  datatype Tally = Tally(score: int, heat: real)

  /** The score and heat after scoring catches of `kinds`, in order. */
  function ApplyCatches(score: int, heat: real, kinds: seq<ItemType>): Tally
    decreases |kinds|
  {
    if kinds == [] then Tally(score, heat)
    else ApplyCatches(AddPoints(score, CatchPoints(kinds[0], heat)), CatchHeat(kinds[0], heat), kinds[1..])
  }

  /** The pass explodes exactly when a propane tank is among the caught items. */
  lemma {:induction false} SweepBoomIff(items: seq<Item>, kettleX: real, h: real, dt: real, score: int, heat: real)
    ensures Sweep(items, kettleX, h, dt, score, heat).boom <==> Propane in CaughtKinds(items, kettleX, h, dt)
  {
    if items != [] {
      var it := Move(items[0], dt);
      if OffScreen(it, h) || !InCatchBox(it, kettleX, h) {
        SweepBoomIff(items[1..], kettleX, h, dt, score, heat);
      } else if it.kind != Propane {
        SweepBoomIff(items[1..], kettleX, h, dt,
          AddPoints(score, CatchPoints(it.kind, heat)), CatchHeat(it.kind, heat));
      }
    }
  }

  /**
   * Without a propane catch, the pass looks at every item, keeps exactly the
   * ones still falling, and scores exactly the caught ones in order; items
   * below the canvas count for nothing.
   */
  lemma {:induction false} SweepWithoutBoom(items: seq<Item>, kettleX: real, h: real, dt: real, score: int, heat: real)
    requires !Sweep(items, kettleX, h, dt, score, heat).boom
    ensures var r := Sweep(items, kettleX, h, dt, score, heat);
      && r.seen == |items|
      && r.survivors == Falling(items, kettleX, h, dt)
      && Tally(r.score, r.heat) == ApplyCatches(score, heat, CaughtKinds(items, kettleX, h, dt))
  {
    if items != [] {
      var it := Move(items[0], dt);
      var rest := items[1..];
      if !Caught(it, kettleX, h) {
        SweepWithoutBoom(rest, kettleX, h, dt, score, heat);
        assert CaughtKinds(items, kettleX, h, dt) == CaughtKinds(rest, kettleX, h, dt);
      } else {
        var s', h' := AddPoints(score, CatchPoints(it.kind, heat)), CatchHeat(it.kind, heat);
        SweepWithoutBoom(rest, kettleX, h, dt, s', h');
        var kinds := CaughtKinds(items, kettleX, h, dt);
        assert kinds == [it.kind] + CaughtKinds(rest, kettleX, h, dt);
        assert kinds[0] == it.kind && kinds[1..] == CaughtKinds(rest, kettleX, h, dt);
      }
    }
  }

  /** The caught kinds of a non-empty prefix, from its first item. */
  lemma CaughtKindsPrefix(items: seq<Item>, n: nat, kettleX: real, h: real, dt: real)
    requires 1 <= n <= |items|
    ensures CaughtKinds(items[..n], kettleX, h, dt) ==
      (if Caught(Move(items[0], dt), kettleX, h) then [items[0].kind] else []) + CaughtKinds(items[1..][..n - 1], kettleX, h, dt)
  {
    assert items[..n][0] == items[0];
    assert items[..n][1..] == items[1..][..n - 1];
  }

  /**
   * With a propane catch, the pass stops at that tank: the items after it are
   * never looked at, and the tank itself changes neither score nor heat.
   */
  lemma {:induction false} SweepStopsAtPropane(items: seq<Item>, more: seq<Item>, kettleX: real, h: real, dt: real,
                                               score: int, heat: real)
    requires Sweep(items, kettleX, h, dt, score, heat).boom
    ensures var r := Sweep(items, kettleX, h, dt, score, heat);
      && Sweep(items + more, kettleX, h, dt, score, heat) == r
      && 1 <= r.seen <= |items|
      && Caught(Move(items[r.seen - 1], dt), kettleX, h) && items[r.seen - 1].kind == Propane
      && Propane !in CaughtKinds(items[..r.seen - 1], kettleX, h, dt)
      && Tally(r.score, r.heat) == ApplyCatches(score, heat, CaughtKinds(items[..r.seen - 1], kettleX, h, dt))
  {
    var it := Move(items[0], dt);
    var rest := items[1..];
    assert (items + more)[0] == items[0];
    assert (items + more)[1..] == rest + more;
    if !Caught(it, kettleX, h) {
      SweepStopsAtPropane(rest, more, kettleX, h, dt, score, heat);
      var r := Sweep(rest, kettleX, h, dt, score, heat);
      assert items[r.seen] == rest[r.seen - 1];
      CaughtKindsPrefix(items, r.seen, kettleX, h, dt);
      assert CaughtKinds(items[..r.seen], kettleX, h, dt) == CaughtKinds(rest[..r.seen - 1], kettleX, h, dt);
    } else if it.kind != Propane {
      var s', h' := AddPoints(score, CatchPoints(it.kind, heat)), CatchHeat(it.kind, heat);
      SweepStopsAtPropane(rest, more, kettleX, h, dt, s', h');
      var r := Sweep(rest, kettleX, h, dt, s', h');
      assert items[r.seen] == rest[r.seen - 1];
      CaughtKindsPrefix(items, r.seen, kettleX, h, dt);
      var kinds := CaughtKinds(items[..r.seen], kettleX, h, dt);
      assert kinds[0] == it.kind && kinds[1..] == CaughtKinds(rest[..r.seen - 1], kettleX, h, dt);
    } else {
      assert items[..0] == [];
    }
  }

  /** A scoring pass keeps the score non-negative and the heat within [0, MaxHeat]. */
  lemma {:induction false} SweepKeepsBounds(items: seq<Item>, kettleX: real, h: real, dt: real, score: int, heat: real)
    requires score >= 0 && 0.0 <= heat <= MaxHeat
    ensures var r := Sweep(items, kettleX, h, dt, score, heat);
      r.score >= 0 && 0.0 <= r.heat <= MaxHeat
  {
    if items != [] {
      var it := Move(items[0], dt);
      CatchKeepsBounds(it.kind, score, heat);
      SweepKeepsBounds(items[1..], kettleX, h, dt, score, heat);
      SweepKeepsBounds(items[1..], kettleX, h, dt,
        AddPoints(score, CatchPoints(it.kind, heat)), CatchHeat(it.kind, heat));
    }
  }

  ghost predicate IdsIncreasing(items: seq<Item>)
  {
    forall i, j :: 0 <= i < j < |items| ==> items[i].id < items[j].id
  }

  ghost predicate IdsWithin(items: seq<Item>, lo: int, hi: int)
  {
    forall k :: 0 <= k < |items| ==> lo < items[k].id < hi
  }

  /** The survivors keep their order: identifiers stay increasing and within the same bounds. */
  lemma IdsCons(x: Item, s: seq<Item>, lo: int, hi: int)
    requires lo < x.id < hi && IdsIncreasing(s) && IdsWithin(s, x.id, hi)
    ensures IdsIncreasing([x] + s) && IdsWithin([x] + s, lo, hi)
  {
  }

  lemma {:induction false} SweepKeepsIds(items: seq<Item>, kettleX: real, h: real, dt: real, score: int, heat: real,
                                         lo: int, hi: int)
    requires IdsIncreasing(items) && IdsWithin(items, lo, hi)
    ensures var r := Sweep(items, kettleX, h, dt, score, heat);
      IdsIncreasing(r.survivors) && IdsWithin(r.survivors, lo, hi)
  {
    if items != [] {
      var it := Move(items[0], dt);
      var rest := items[1..];
      assert IdsIncreasing(rest) && IdsWithin(rest, it.id, hi);
      var caught := Caught(it, kettleX, h);
      var s' := if caught then AddPoints(score, CatchPoints(it.kind, heat)) else score;
      var h' := if caught then CatchHeat(it.kind, heat) else heat;
      SweepKeepsIds(rest, kettleX, h, dt, s', h', it.id, hi);
      var tail := Sweep(rest, kettleX, h, dt, s', h');
      if Falls(it, kettleX, h) {
        IdsCons(it, tail.survivors, lo, hi);
      }
    }
  }

  // ---------------------------------------------------------------------
  // Spawning

  /** The four random draws a spawn consumes: extra delay, item type, column, speed jitter. */
  datatype SpawnDraws = SpawnDraws(delay: real, kind: real, x: real, speed: real)

  predicate DrawsInRange(d: SpawnDraws)
  {
    && 0.0 <= d.delay < 1.0 && 0.0 <= d.kind < 1.0 && 0.0 <= d.x < 1.0 && 0.0 <= d.speed < 1.0
  }

  /** A new item of type `t` at the top of a canvas `w` wide. */
  function NewItem(id: nat, t: ItemType, level: int, w: real, d: SpawnDraws): Item
  {
    var cfg := Config(t);
    Item(id, t, d.x * (w - cfg.w), -cfg.h, FallSpeed(level) + (d.speed - 0.5) * 0.8, cfg.w, cfg.h)
  }

  datatype Spawned = Spawned(timer: real, items: seq<Item>, nextId: nat)

  /** The spawn step of one frame: count the timer down and, when it runs out, add one item. */
  function SpawnStep(timer: real, items: seq<Item>, nextId: nat, dt: real, level: int, w: real, d: SpawnDraws): Spawned
  {
    var t := timer - dt;
    if t > 0.0 then Spawned(t, items, nextId)
    else
      var kind := Select(d.kind * TotalWeight(Configs) as real, Configs);
      Spawned(SpawnInterval(level) as real + d.delay * SpawnJitter, items + [NewItem(nextId, kind, level, w, d)], nextId + 1)
  }

  /**
   * A frame adds at most one item, with the next identifier, at the top of the
   * canvas; the timer restarts between the spawn interval and 300 ms more.
   */
  lemma SpawnStepMeaning(timer: real, items: seq<Item>, nextId: nat, dt: real, level: int, w: real, d: SpawnDraws)
    requires DrawsInRange(d)
    ensures var s := SpawnStep(timer, items, nextId, dt, level, w, d);
      && (timer - dt > 0.0 ==> s == Spawned(timer - dt, items, nextId))
      && (timer - dt <= 0.0 ==>
            && s.nextId == nextId + 1 && |s.items| == |items| + 1 && s.items[..|items|] == items
            && s.items[|items|].id == nextId && s.items[|items|].kind == PickedType(d.kind)
            && s.items[|items|].y == -Config(s.items[|items|].kind).h
            && SpawnInterval(level) as real <= s.timer < SpawnInterval(level) as real + SpawnJitter)
  {
    TotalWeightIs100();
    var s := SpawnStep(timer, items, nextId, dt, level, w, d);
    if timer - dt <= 0.0 {
      assert s.items[..|items|] == items;
    }
  }

  /** Spawning keeps the identifiers increasing and below the next one. */
  lemma SpawnKeepsIds(timer: real, items: seq<Item>, nextId: nat, dt: real, level: int, w: real, d: SpawnDraws)
    requires IdsIncreasing(items) && IdsWithin(items, -1, nextId)
    ensures var s := SpawnStep(timer, items, nextId, dt, level, w, d);
      IdsIncreasing(s.items) && IdsWithin(s.items, -1, s.nextId)
  {
  }

  // ---------------------------------------------------------------------
  // The game

  /**
   * The loop over the items of one frame, with the frame's score and heat:
   * the new item list (moved prefix when a tank exploded, survivors
   * otherwise), the new score and heat, and whether a tank exploded.
   */
  method SweepItems(items: seq<Item>, kettleX: real, h: real, dt: real, score: int, heat: real)
    returns (next: seq<Item>, sc: int, ht: real, boom: bool)
    ensures var r := Sweep(items, kettleX, h, dt, score, heat);
      && sc == r.score && ht == r.heat && boom == r.boom
      && next == (if r.boom then MovedPrefix(items, r.seen, dt) else r.survivors)
  {
    var list := items;
    var surviving: seq<Item> := [];
    sc, ht, boom := score, heat, false;
    var i := 0;
    while i < |list|
      invariant 0 <= i <= |list| == |items|
      invariant forall k :: 0 <= k < i ==> list[k] == Move(items[k], dt)
      invariant forall k :: i <= k < |list| ==> list[k] == items[k]
      invariant Sweep(items, kettleX, h, dt, score, heat) == Shift(Sweep(items[i..], kettleX, h, dt, sc, ht), surviving, i)
    {
      SweepFrom(items, i, kettleX, h, dt, sc, ht);
      var item := Move(list[i], dt);
      list := list[i := item];
      if OffScreen(item, h) {
        ghost var tail := Sweep(items[i + 1..], kettleX, h, dt, sc, ht);
        ShiftShift(tail, surviving, i, [], 1);
        assert surviving + [] == surviving;
        i := i + 1;
        continue;
      }
      if InCatchBox(item, kettleX, h) {
        if item.kind == Propane {
          boom := true;
          break;
        }
        var points := CatchPoints(item.kind, ht);
        ht := CatchHeat(item.kind, ht);
        sc := AddPoints(sc, points);
        ghost var tail := Sweep(items[i + 1..], kettleX, h, dt, sc, ht);
        ShiftShift(tail, surviving, i, [], 1);
        assert surviving + [] == surviving;
        i := i + 1;
        continue;
      }
      ghost var tail := Sweep(items[i + 1..], kettleX, h, dt, sc, ht);
      ShiftShift(tail, surviving, i, [item], 1);
      surviving := surviving + [item];
      i := i + 1;
    }
    ghost var r := Sweep(items, kettleX, h, dt, score, heat);
    if boom {
      assert r == Shift(SweepResult([], sc, ht, true, 1), surviving, i);
      assert list == MovedPrefix(items, i + 1, dt);
      next := list;
    } else {
      assert items[i..] == [];
      assert r == Shift(SweepResult([], sc, ht, false, 0), surviving, i);
      next := surviving;
    }
  }

  class Game {
    var kettleX: real
    var score: int
    var heat: real
    var items: seq<Item>
    var nextId: nat
    var spawnTimer: real
    var mouseX: real
    var keysDown: set<string>
    var state: GameState
    var canvasW: nat
    var canvasH: nat
    var lastTime: real

    ghost predicate Valid()
      reads this
    {
      && score >= 0
      && 0.0 <= heat <= MaxHeat
      && IdsIncreasing(items)
      && IdsWithin(items, -1, nextId)
    }

    /** Mounting the canvas on a `w` by `h` window: the start screen, kettle centred. */
    constructor (w: nat, h: nat)
      ensures Valid()
      ensures state == Start && canvasW == w && canvasH == h
      ensures kettleX == w as real / 2.0 - KettleWidth / 2.0
      ensures score == 0 && heat == 0.0 && items == [] && nextId == 0 && spawnTimer == 0.0
      ensures mouseX == -1.0 && keysDown == {} && lastTime == 0.0
    {
      score, heat, items, nextId, spawnTimer := 0, 0.0, [], 0, 0.0;
      mouseX, keysDown, state := -1.0, {}, Start;
      canvasW, canvasH := w, h;
      kettleX := w as real / 2.0 - KettleWidth / 2.0;
      lastTime := 0.0;
    }

    /** `resize`: the canvas follows the window. */
    method Resize(w: nat, h: nat)
      modifies this
      ensures canvasW == w && canvasH == h
      ensures kettleX == old(kettleX) && score == old(score) && heat == old(heat) && items == old(items)
      ensures nextId == old(nextId) && spawnTimer == old(spawnTimer) && mouseX == old(mouseX)
      ensures keysDown == old(keysDown) && state == old(state) && lastTime == old(lastTime)
    {
      canvasW, canvasH := w, h;
    }

    /** `startGame`: clear the round and centre the kettle. */
    method StartGame()
      modifies this
      ensures Valid()
      ensures state == Playing && score == 0 && heat == 0.0 && items == [] && nextId == 0 && spawnTimer == 0.0
      ensures kettleX == canvasW as real / 2.0 - KettleWidth / 2.0
      ensures canvasW == old(canvasW) && canvasH == old(canvasH) && mouseX == old(mouseX)
      ensures keysDown == old(keysDown) && lastTime == old(lastTime)
    {
      score, heat, items, nextId, spawnTimer := 0, 0.0, [], 0, 0.0;
      kettleX := canvasW as real / 2.0 - KettleWidth / 2.0;
      state := Playing;
    }

    /** `onKeyDown`: remember the key; space or Enter starts a round from the start or game-over screen. */
    method KeyDown(key: string)
      requires Valid()
      modifies this
      ensures Valid()
      ensures keysDown == old(keysDown) + {key}
      ensures (key == " " || key == "Enter") && old(state) != Playing ==>
        state == Playing && score == 0 && heat == 0.0 && items == [] && nextId == 0 && spawnTimer == 0.0
        && kettleX == canvasW as real / 2.0 - KettleWidth / 2.0
      ensures !((key == " " || key == "Enter") && old(state) != Playing) ==>
        state == old(state) && score == old(score) && heat == old(heat) && items == old(items)
        && nextId == old(nextId) && spawnTimer == old(spawnTimer) && kettleX == old(kettleX)
      ensures canvasW == old(canvasW) && canvasH == old(canvasH) && mouseX == old(mouseX) && lastTime == old(lastTime)
    {
      keysDown := keysDown + {key};
      if key == " " || key == "Enter" {
        if state == Start {
          StartGame();
        } else if state == GameOver {
          StartGame();
        }
      }
    }

    /** `onKeyUp`: forget the key. */
    method KeyUp(key: string)
      modifies this
      ensures keysDown == old(keysDown) - {key}
      ensures kettleX == old(kettleX) && score == old(score) && heat == old(heat) && items == old(items)
      ensures nextId == old(nextId) && spawnTimer == old(spawnTimer) && mouseX == old(mouseX)
      ensures state == old(state) && canvasW == old(canvasW) && canvasH == old(canvasH) && lastTime == old(lastTime)
    {
      keysDown := keysDown - {key};
    }

    /** `onMouseMove` and `onTouchMove`: the pointer's x, from the first touch if any. */
    method PointerMove(touches: seq<real>)
      modifies this
      ensures mouseX == if |touches| > 0 then touches[0] else old(mouseX)
      ensures kettleX == old(kettleX) && score == old(score) && heat == old(heat) && items == old(items)
      ensures nextId == old(nextId) && spawnTimer == old(spawnTimer) && keysDown == old(keysDown)
      ensures state == old(state) && canvasW == old(canvasW) && canvasH == old(canvasH) && lastTime == old(lastTime)
    {
      if |touches| > 0 {
        mouseX := touches[0];
      }
    }

    /** `onTouchStart`: track the first touch; a tap outside a round starts one. */
    method TouchStart(touches: seq<real>)
      requires Valid()
      modifies this
      ensures Valid()
      ensures mouseX == if |touches| > 0 then touches[0] else old(mouseX)
      ensures old(state) != Playing ==>
        state == Playing && score == 0 && heat == 0.0 && items == [] && nextId == 0 && spawnTimer == 0.0
        && kettleX == canvasW as real / 2.0 - KettleWidth / 2.0
      ensures old(state) == Playing ==>
        state == Playing && score == old(score) && heat == old(heat) && items == old(items)
        && nextId == old(nextId) && spawnTimer == old(spawnTimer) && kettleX == old(kettleX)
      ensures keysDown == old(keysDown) && canvasW == old(canvasW) && canvasH == old(canvasH) && lastTime == old(lastTime)
    {
      if |touches| > 0 {
        mouseX := touches[0];
      }
      if state != Playing {
        StartGame();
      }
    }

    /** The kettle part of a playing frame. */
    method MoveKettle()
      modifies this
      ensures var m := KettleStep(old(kettleX), old(mouseX), keysDown, canvasW as real);
        kettleX == m.x && mouseX == m.mouseX
      ensures score == old(score) && heat == old(heat) && items == old(items) && nextId == old(nextId)
      ensures spawnTimer == old(spawnTimer) && keysDown == old(keysDown) && state == old(state)
      ensures canvasW == old(canvasW) && canvasH == old(canvasH) && lastTime == old(lastTime)
    {
      if mouseX >= 0.0 {
        var target := mouseX - KettleWidth / 2.0;
        var diff := target - kettleX;
        kettleX := kettleX + diff * KettleEasing;
      }
      if "ArrowLeft" in keysDown || "a" in keysDown {
        kettleX := kettleX - KettleSpeed;
        mouseX := -1.0;
      }
      if "ArrowRight" in keysDown || "d" in keysDown {
        kettleX := kettleX + KettleSpeed;
        mouseX := -1.0;
      }
      kettleX := Clamp(kettleX, canvasW as real);
    }

    /** The spawn part of a playing frame. */
    method Spawn(dt: real, level: int, d: SpawnDraws)
      modifies this
      ensures Spawned(spawnTimer, items, nextId) ==
        SpawnStep(old(spawnTimer), old(items), old(nextId), dt, level, canvasW as real, d)
      ensures kettleX == old(kettleX) && score == old(score) && heat == old(heat) && mouseX == old(mouseX)
      ensures keysDown == old(keysDown) && state == old(state)
      ensures canvasW == old(canvasW) && canvasH == old(canvasH) && lastTime == old(lastTime)
    {
      spawnTimer := spawnTimer - dt;
      if spawnTimer <= 0.0 {
        spawnTimer := SpawnInterval(level) as real + d.delay * SpawnJitter;
        var t := PickItemType(d.kind);
        items := items + [NewItem(nextId, t, level, canvasW as real, d)];
        nextId := nextId + 1;
      }
    }

    /**
     * The item pass of a playing frame. Items are moved in place as they are
     * looked at; a caught propane tank ends the game and the pass, leaving the
     * list as it is; otherwise the list becomes the survivors.
     */
    method UpdateItems(dt: real)
      requires state == Playing
      modifies this
      ensures var r := Sweep(old(items), kettleX, canvasH as real, dt, old(score), old(heat));
        && score == r.score && heat == r.heat
        && state == (if r.boom then GameOver else Playing)
        && items == (if r.boom then MovedPrefix(old(items), r.seen, dt) else r.survivors)
      ensures kettleX == old(kettleX) && nextId == old(nextId) && spawnTimer == old(spawnTimer)
      ensures mouseX == old(mouseX) && keysDown == old(keysDown)
      ensures canvasW == old(canvasW) && canvasH == old(canvasH) && lastTime == old(lastTime)
    {
      var next, sc, ht, boom := SweepItems(items, kettleX, canvasH as real, dt, score, heat);
      if boom {
        state := GameOver;
      }
      items, score, heat := next, sc, ht;
    }

    /**
     * The playing part of one animation frame of `dt` ms: the kettle, spawn,
     * item and heat steps in that order, the heat drain even in the frame a
     * tank explodes.
     */
    method Play(dt: real, d: SpawnDraws)
      requires Valid() && state == Playing && 0.0 <= dt
      modifies this
      ensures Valid()
      ensures canvasW == old(canvasW) && canvasH == old(canvasH) && keysDown == old(keysDown) && lastTime == old(lastTime)
      ensures var level := SpeedLevel(old(score));
        var m := KettleStep(old(kettleX), old(mouseX), keysDown, canvasW as real);
        var s := SpawnStep(old(spawnTimer), old(items), old(nextId), dt, level, canvasW as real, d);
        var r := Sweep(s.items, m.x, canvasH as real, dt, old(score), old(heat));
        && kettleX == m.x && mouseX == m.mouseX && spawnTimer == s.timer && nextId == s.nextId
        && score == r.score && heat == Drain(r.heat, dt)
        && state == (if r.boom then GameOver else Playing)
        && items == (if r.boom then MovedPrefix(s.items, r.seen, dt) else r.survivors)
    {
      ghost var score0, heat0, items0, nextId0 := score, heat, items, nextId;
      var level := SpeedLevel(score);
      MoveKettle();
      Spawn(dt, level, d);
      assert IdsIncreasing(items) && IdsWithin(items, -1, nextId) by {
        SpawnKeepsIds(spawnTimer, items0, nextId0, dt, level, canvasW as real, d);
      }
      ghost var spawned := items;
      UpdateItems(dt);
      ghost var r := Sweep(spawned, kettleX, canvasH as real, dt, score0, heat0);
      SweepKeepsBounds(spawned, kettleX, canvasH as real, dt, score0, heat0);
      if !r.boom {
        SweepKeepsIds(spawned, kettleX, canvasH as real, dt, score0, heat0, -1, nextId);
      } else {
        assert forall k :: 0 <= k < |items| ==> items[k].id == spawned[k].id;
      }
      DrainBounds(heat, dt);
      heat := Drain(heat, dt);
    }

    /**
     * One animation frame at `time` ms. On the start and game-over screens only
     * the clock is recorded; while playing, the playing step runs with the
     * elapsed time.
     */
    method Frame(time: real, d: SpawnDraws)
      requires Valid()
      requires lastTime <= time
      modifies this
      ensures Valid()
      ensures lastTime == time
      ensures canvasW == old(canvasW) && canvasH == old(canvasH) && keysDown == old(keysDown)
      ensures old(state) != Playing ==>
        && state == old(state) && kettleX == old(kettleX) && mouseX == old(mouseX) && score == old(score)
        && heat == old(heat) && items == old(items) && nextId == old(nextId) && spawnTimer == old(spawnTimer)
      ensures old(state) == Playing ==>
        var dt := FrameDelta(old(lastTime), time);
        var level := SpeedLevel(old(score));
        var m := KettleStep(old(kettleX), old(mouseX), keysDown, canvasW as real);
        var s := SpawnStep(old(spawnTimer), old(items), old(nextId), dt, level, canvasW as real, d);
        var r := Sweep(s.items, m.x, canvasH as real, dt, old(score), old(heat));
        && kettleX == m.x && mouseX == m.mouseX && spawnTimer == s.timer && nextId == s.nextId
        && score == r.score && heat == Drain(r.heat, dt)
        && state == (if r.boom then GameOver else Playing)
        && items == (if r.boom then MovedPrefix(s.items, r.seen, dt) else r.survivors)
    {
      var dt := FrameDelta(lastTime, time);
      lastTime := time;
      if state == Playing {
        Play(dt, d);
      }
    }
  }
}
