/** Power-ups (js/powerup.js): the collectable pick-ups placed on the track
    and the manager that spawns them on a timer, ages them, hands the first
    one in reach to a car and drops the collected ones. */
module PowerUps {
  import opened Utils
  import opened Cars
  import opened Tracks

  /** The pick-up radius of a power-up. */
  const Radius: real := 15.0

  /** Seconds between spawns, and the most power-ups on the track. */
  const SpawnInterval: real := 5.0
  const MaxPowerUps: nat := 5

  /** The types in the order PowerUp.getRandomType lists them. */
  const TypeList: seq<PowerUpType> := [SpeedBoost, Shield, Nitro, SlowMotion]

  /** PowerUp.getRandomType, with the Math.random() draw passed in. */
  function RandomType(draw: real): (k: PowerUpType)
    requires 0.0 <= draw < 1.0
    ensures draw < 0.25 ==> k == SpeedBoost
  {
    TypeList[RandomInt(0, |TypeList| - 1, draw)]
  }

  /** Each type owns a quarter of the draws, in list order, so every type
      can come up. */
  lemma RandomTypeQuarters(i: nat, draw: real)
    requires i < 4
    requires i as real / 4.0 <= draw < (i + 1) as real / 4.0
    ensures RandomType(draw) == TypeList[i]
  {
    assert Mul(draw, 4.0) == draw * 4.0;
    assert i as real <= Mul(draw, 4.0) < i as real + 1.0;
  }

  /** The state of one power-up. `placed` is false for a power-up spawned on
      a segment of zero length, whose coordinates are NaN in the source;
      such a power-up can never be collected. */
  datatype Item = Item(x: real, y: real, placed: bool, kind: PowerUpType, collected: bool, animationTime: real)

  /** The reference for PowerUp.checkCollection: not yet collected, and the
      car's centre strictly nearer than the radius plus half the car's
      width. */
  predicate InReach(m: MathLib, it: Item, s: CarState)
  {
    !it.collected && it.placed && Distance(m, it.x, it.y, s.x, s.y) < Radius + Width / 2.0
  }

  /** With an exact square root the reach is a disc of radius 25 around the
      power-up, stated without the root. */
  lemma InReachDisc(m: MathLib, it: Item, s: CarState)
    requires ExactSqrt(m)
    ensures InReach(m, it, s) <==> !it.collected && it.placed && SqDist(it.x, it.y, s.x, s.y) < 625.0
  {
    DistanceBelow(m, it.x, it.y, s.x, s.y, Radius + Width / 2.0);
  }

  /** PowerUp.update: the animation clock advances by the frame time in
      seconds and nothing else changes. */
  function Aged(it: Item, deltaTime: real): (r: Item)
    ensures r.(animationTime := it.animationTime) == it
    ensures r.animationTime - it.animationTime == Seconds(deltaTime)
  {
    it.(animationTime := it.animationTime + Seconds(deltaTime))
  }

  class PowerUp {
    const x: real
    const y: real
    const placed: bool
    const kind: PowerUpType
    var collected: bool
    var animationTime: real

    function Value(): Item
      reads this
    {
      Item(x, y, placed, kind, collected, animationTime)
    }

    /** `new PowerUp(x, y, type)`: the given type, or a random one drawn
        with `draw` when none is given. */
    constructor (x0: real, y0: real, placed0: bool, given: Option<PowerUpType>, draw: real)
      requires 0.0 <= draw < 1.0
      ensures Value() == Item(x0, y0, placed0, if given.Some? then given.value else RandomType(draw), false, 0.0)
    {
      x, y, placed := x0, y0, placed0;
      kind := if given.Some? then given.value else RandomType(draw);
      collected := false;
      animationTime := 0.0;
    }

    /** PowerUp.update. */
    method Update(deltaTime: real)
      modifies this
      ensures Value() == Aged(old(Value()), deltaTime)
    {
      animationTime := animationTime + Seconds(deltaTime);
    }

    /** PowerUp.checkCollection. */
    predicate CheckCollection(m: MathLib, car: Car)
      reads this, car
    {
      InReach(m, Value(), car.State())
    }

    /** PowerUp.collect. */
    method Collect()
      modifies this
      ensures Value() == old(Value()).(collected := true)
    {
      collected := true;
    }
  }

  /** The states of a sequence of power-ups. */
  function Values(ps: seq<PowerUp>): (r: seq<Item>)
    reads ps
    ensures |r| == |ps|
    ensures forall i :: 0 <= i < |ps| ==> r[i] == ps[i].Value()
  {
    seq(|ps|, i requires 0 <= i < |ps| reads ps => ps[i].Value())
  }

  /** No power-up appears twice in the manager's list. */
  predicate Distinct(ps: seq<PowerUp>)
  {
    forall i, j :: 0 <= i < j < |ps| ==> ps[i] != ps[j]
  }

  /** The filter `!pu.collected` on states, keeping the order. */
  function Uncollected(items: seq<Item>): (r: seq<Item>)
    ensures |r| <= |items|
  {
    if |items| == 0 then []
    else (if items[0].collected then [] else [items[0]]) + Uncollected(items[1..])
  }

  /** The filter keeps exactly the uncollected entries: a list with nothing
      collected is kept whole, and one with everything collected empties. */
  lemma {:induction false} UncollectedMembers(items: seq<Item>)
    ensures forall it :: it in Uncollected(items) <==> it in items && !it.collected
    ensures (forall i :: 0 <= i < |items| ==> !items[i].collected) ==> Uncollected(items) == items
    ensures (forall i :: 0 <= i < |items| ==> items[i].collected) ==> Uncollected(items) == []
  {
    if |items| > 0 {
      UncollectedMembers(items[1..]);
      assert items == [items[0]] + items[1..];
    }
  }

  lemma TailOfAppend(a: seq<Item>, b: seq<Item>)
    requires |a| > 0
    ensures (a + b)[0] == a[0] && (a + b)[1..] == a[1..] + b
  {
  }

  /** The filter works entry by entry, so it keeps the order of what it
      keeps: filtering a concatenation concatenates the filtered parts. */
  lemma {:induction false} UncollectedAppend(a: seq<Item>, b: seq<Item>)
    ensures Uncollected(a + b) == Uncollected(a) + Uncollected(b)
  {
    if |a| > 0 {
      var head := if a[0].collected then [] else [a[0]];
      UncollectedAppend(a[1..], b);
      TailOfAppend(a, b);
      calc {
        Uncollected(a + b);
        head + Uncollected(a[1..] + b);
        head + (Uncollected(a[1..]) + Uncollected(b));
        (head + Uncollected(a[1..])) + Uncollected(b);
        Uncollected(a) + Uncollected(b);
      }
    } else {
      assert a + b == b;
    }
  }

  /** The same filter on the power-up objects. */
  function KeepUncollected(ps: seq<PowerUp>): (r: seq<PowerUp>)
    reads ps
    ensures forall p :: p in r ==> p in ps
  {
    if |ps| == 0 then []
    else (if ps[0].collected then [] else [ps[0]]) + KeepUncollected(ps[1..])
  }

  /** Filtering the objects filters their states. */
  lemma {:induction false} KeepUncollectedValues(ps: seq<PowerUp>)
    ensures Values(KeepUncollected(ps)) == Uncollected(Values(ps))
  {
    if |ps| > 0 {
      KeepUncollectedValues(ps[1..]);
      var vs := Values(ps);
      assert vs[1..] == Values(ps[1..]);
      var rest := KeepUncollected(ps[1..]);
      if ps[0].collected {
        assert KeepUncollected(ps) == rest;
        assert Uncollected(vs) == Uncollected(vs[1..]);
      } else {
        assert KeepUncollected(ps) == [ps[0]] + rest;
        assert Values([ps[0]] + rest) == [vs[0]] + Values(rest);
        assert Uncollected(vs) == [vs[0]] + Uncollected(vs[1..]);
      }
    }
  }

  /** Filtering keeps the objects distinct. */
  lemma {:induction false} KeepUncollectedDistinct(ps: seq<PowerUp>)
    requires Distinct(ps)
    ensures Distinct(KeepUncollected(ps))
  {
    if |ps| > 0 {
      KeepUncollectedDistinct(ps[1..]);
      var rest := KeepUncollected(ps[1..]);
      assert ps[0] !in ps[1..];
      assert ps[0] !in rest;
    }
  }

  /** The four Math.random() draws of one spawn, in the order the source
      makes them: the path index, the position along the segment, the
      sideways offset and the type. */
  datatype SpawnDraws = SpawnDraws(index: real, t: real, offset: real, kind: real)

  predicate DrawsInRange(d: SpawnDraws)
  {
    && 0.0 <= d.index < 1.0 && 0.0 <= d.t < 1.0
    && 0.0 <= d.offset < 1.0 && 0.0 <= d.kind < 1.0
  }

  /** The segment a spawn lands on. */
  function SpawnIndex(n: nat, draw: real): (i: nat)
    requires 0 < n && 0.0 <= draw < 1.0
    ensures i < n
  {
    RandomInt(0, n - 1, draw)
  }

  /** The point along the spawn segment, before the sideways offset. */
  function SpawnBase(path: seq<Point>, d: SpawnDraws): (p: Point)
    requires 0 < |path| && DrawsInRange(d)
    ensures var i := SpawnIndex(|path|, d.index);
            var a := path[i];
            var b := path[(i + 1) % |path|];
            Min(a.x, b.x) <= p.x <= Max(a.x, b.x) && Min(a.y, b.y) <= p.y <= Max(a.y, b.y)
  {
    var i := SpawnIndex(|path|, d.index);
    var a := path[i];
    var b := path[(i + 1) % |path|];
    Point(Lerp(a.x, b.x, d.t), Lerp(a.y, b.y, d.t))
  }

  /** The sideways offset of a spawn, within a quarter of the track width
      either way. */
  function SpawnOffset(d: SpawnDraws): (o: real)
    requires DrawsInRange(d)
    ensures -TrackWidth / 4.0 <= o < TrackWidth / 4.0
  {
    RandomReal(-TrackWidth / 4.0, TrackWidth / 4.0, d.offset)
  }

  /** PowerUpManager.spawnPowerUp on states: nothing without a path, else a
      fresh uncollected power-up of a random type, offset from the segment
      along its unit normal. */
  function SpawnItem(m: MathLib, path: seq<Point>, d: SpawnDraws): (r: Option<Item>)
    requires DrawsInRange(d)
    ensures r.None? <==> |path| == 0
    ensures r.Some? ==> !r.value.collected && r.value.animationTime == 0.0 && r.value.kind == RandomType(d.kind)
    ensures r.Some? ==>
              var i := SpawnIndex(|path|, d.index);
              (r.value.placed <==> m.sqrt(SqDist(path[i].x, path[i].y, path[(i + 1) % |path|].x, path[(i + 1) % |path|].y)) != 0.0)
  {
    if |path| == 0 then None
    else
      var i := SpawnIndex(|path|, d.index);
      var a := path[i];
      var b := path[(i + 1) % |path|];
      var base := SpawnBase(path, d);
      var dx := b.x - a.x;
      var dy := b.y - a.y;
      var len := m.sqrt(Sq(dx) + Sq(dy));
      var offset := SpawnOffset(d);
      if len == 0.0 then
        Some(Item(base.x, base.y, false, RandomType(d.kind), false, 0.0))
      else
        var perpX := -dy / len;
        var perpY := dx / len;
        Some(Item(base.x + Mul(perpX, offset), base.y + Mul(perpY, offset), true, RandomType(d.kind), false, 0.0))
  }

  /** With an exact square root, a placed power-up lies exactly the offset
      away from its point on the segment, so less than a quarter of the
      track width from the centre line. */
  lemma SpawnNearCentreLine(m: MathLib, path: seq<Point>, d: SpawnDraws)
    requires ExactSqrt(m) && DrawsInRange(d) && 0 < |path|
    requires SpawnItem(m, path, d).Some? && SpawnItem(m, path, d).value.placed
    ensures var it := SpawnItem(m, path, d).value;
            var base := SpawnBase(path, d);
            Sq(Distance(m, base.x, base.y, it.x, it.y)) == Sq(SpawnOffset(d))
    ensures var it := SpawnItem(m, path, d).value;
            var base := SpawnBase(path, d);
            Distance(m, base.x, base.y, it.x, it.y) <= TrackWidth / 4.0
  {
    ExactSqrtIsLawful(m);
    var i := SpawnIndex(|path|, d.index);
    var a := path[i];
    var b := path[(i + 1) % |path|];
    var dx := b.x - a.x;
    var dy := b.y - a.y;
    var len := m.sqrt(Sq(dx) + Sq(dy));
    SquareSign(dx);
    SquareSign(dy);
    assert 0.0 < len;
    var perpX := -dy / len;
    var perpY := dx / len;
    SquareOfNegation(dy);
    UnitDirection(-dy, dx, len);
    var offset := SpawnOffset(d);
    ScaledLength(perpX, perpY, offset);
    var it := SpawnItem(m, path, d).value;
    var base := SpawnBase(path, d);
    assert it.x - base.x == Mul(perpX, offset) && it.y - base.y == Mul(perpY, offset);
    assert SqDist(base.x, base.y, it.x, it.y) == Sq(offset);
    var dist := Distance(m, base.x, base.y, it.x, it.y);
    if TrackWidth / 4.0 < dist {
      SquareOfNegation(offset);
      var bound := if 0.0 <= offset then offset else -offset;
      assert Sq(bound) == Sq(offset);
      SquareMonotone(bound, TrackWidth / 4.0);
      SquareMonotone(TrackWidth / 4.0, dist);
      assert false;
    }
  }

  /** The manager's state: the power-ups on the track and the spawn timer. */
  datatype Field = Field(items: seq<Item>, spawnTimer: real)

  function OptionSeq(o: Option<Item>): (r: seq<Item>)
    ensures |r| <= 1
    ensures o.Some? ==> r == [o.value]
    ensures o.None? ==> r == []
  {
    if o.Some? then [o.value] else []
  }

  /** The states after aging every power-up by one frame. */
  function AgedAll(items: seq<Item>, deltaTime: real): (r: seq<Item>)
    ensures |r| == |items|
    ensures forall i :: 0 <= i < |items| ==> r[i] == Aged(items[i], deltaTime)
  {
    seq(|items|, i requires 0 <= i < |items| => Aged(items[i], deltaTime))
  }

  /** The spawn step of PowerUpManager.update: advance the spawn timer;
      once it reaches the interval with fewer than the maximum on the
      track, spawn and reset it. */
  function Spawned(m: MathLib, path: seq<Point>, f: Field, deltaTime: real, d: SpawnDraws): (r: Field)
    requires DrawsInRange(d)
    ensures f.spawnTimer + Seconds(deltaTime) >= SpawnInterval && |f.items| < MaxPowerUps ==>
              r == Field(f.items + OptionSeq(SpawnItem(m, path, d)), 0.0)
    ensures !(f.spawnTimer + Seconds(deltaTime) >= SpawnInterval && |f.items| < MaxPowerUps) ==>
              r == Field(f.items, f.spawnTimer + Seconds(deltaTime))
  {
    var timer := f.spawnTimer + Seconds(deltaTime);
    if timer >= SpawnInterval && |f.items| < MaxPowerUps then Field(f.items + OptionSeq(SpawnItem(m, path, d)), 0.0)
    else Field(f.items, timer)
  }

  /** PowerUpManager.update on states: the spawn step, then every
      power-up ages and the collected ones are dropped. */
  function ManagerStep(m: MathLib, path: seq<Point>, f: Field, deltaTime: real, d: SpawnDraws): (r: Field)
    requires DrawsInRange(d)
    ensures |f.items| <= MaxPowerUps ==> |r.items| <= MaxPowerUps
    ensures |r.items| <= |f.items| + 1
    ensures forall it :: it in r.items ==> !it.collected
    ensures forall i :: 0 <= i < |f.items| && !f.items[i].collected ==> Aged(f.items[i], deltaTime) in r.items
    ensures r.items == Uncollected(AgedAll(f.items, deltaTime))
                       + (if f.spawnTimer + Seconds(deltaTime) >= SpawnInterval && |f.items| < MaxPowerUps
                          then AgedAll(OptionSeq(SpawnItem(m, path, d)), deltaTime) else [])
    ensures f.spawnTimer + Seconds(deltaTime) >= SpawnInterval && |f.items| < MaxPowerUps ==> r.spawnTimer == 0.0
    ensures !(f.spawnTimer + Seconds(deltaTime) >= SpawnInterval && |f.items| < MaxPowerUps) ==>
              r.spawnTimer == f.spawnTimer + Seconds(deltaTime) && |r.items| <= |f.items|
  {
    var spawned := Spawned(m, path, f, deltaTime, d);
    var extra := if f.spawnTimer + Seconds(deltaTime) >= SpawnInterval && |f.items| < MaxPowerUps
                 then OptionSeq(SpawnItem(m, path, d)) else [];
    assert spawned.items == f.items + extra;
    AgeThenFilter(f.items, extra, deltaTime);
    var aged := AgedAll(spawned.items, deltaTime);
    assert forall i :: 0 <= i < |f.items| ==> aged[i] == Aged(f.items[i], deltaTime);
    UncollectedMembers(aged);
    Field(Uncollected(AgedAll(spawned.items, deltaTime)), spawned.spawnTimer)
  }

  /** Aging then filtering a list with uncollected entries appended keeps
      the filtered old entries in order, followed by the new ones aged. */
  lemma AgeThenFilter(items: seq<Item>, extra: seq<Item>, deltaTime: real)
    requires forall i :: 0 <= i < |extra| ==> !extra[i].collected
    ensures Uncollected(AgedAll(items + extra, deltaTime))
              == Uncollected(AgedAll(items, deltaTime)) + AgedAll(extra, deltaTime)
  {
    var old_ := AgedAll(items, deltaTime);
    var new_ := AgedAll(extra, deltaTime);
    assert AgedAll(items + extra, deltaTime) == old_ + new_;
    UncollectedAppend(old_, new_);
    assert forall i :: 0 <= i < |new_| ==> new_[i].collected == extra[i].collected;
    UncollectedMembers(new_);
  }

  /** The first power-up in reach of the car, scanning from index `k`. */
  function FirstInReachFrom(m: MathLib, items: seq<Item>, s: CarState, k: nat): (r: Option<nat>)
    requires k <= |items|
    decreases |items| - k
    ensures r.None? <==> forall j :: k <= j < |items| ==> !InReach(m, items[j], s)
    ensures r.Some? ==> k <= r.value < |items| && InReach(m, items[r.value], s)
    ensures r.Some? ==> forall j :: k <= j < r.value ==> !InReach(m, items[j], s)
  {
    if k == |items| then None
    else if InReach(m, items[k], s) then Some(k)
    else FirstInReachFrom(m, items, s, k + 1)
  }

  /** The reference for PowerUpManager.checkCollection: the first power-up
      in the list that is in reach. */
  function FirstInReach(m: MathLib, items: seq<Item>, s: CarState): (r: Option<nat>)
    ensures r.None? <==> forall j :: 0 <= j < |items| ==> !InReach(m, items[j], s)
    ensures r.Some? ==> r.value < |items| && InReach(m, items[r.value], s)
    ensures r.Some? ==> forall j :: 0 <= j < r.value ==> !InReach(m, items[j], s)
  {
    FirstInReachFrom(m, items, s, 0)
  }

  /** The states after PowerUpManager.checkCollection: the first power-up in
      reach, if any, is marked collected. */
  function AfterCollection(m: MathLib, items: seq<Item>, s: CarState): (r: seq<Item>)
    ensures |r| == |items|
    ensures FirstInReach(m, items, s).None? ==> r == items
    ensures FirstInReach(m, items, s).Some? ==>
              var i := FirstInReach(m, items, s).value;
              r[i].collected && r[i] == items[i].(collected := true)
              && forall j :: 0 <= j < |items| && j != i ==> r[j] == items[j]
  {
    match FirstInReach(m, items, s)
    case None => items
    case Some(i) => items[i := items[i].(collected := true)]
  }

  /** A collected power-up is not in reach any more, so the same car at the
      same place collects each power-up at most once. */
  lemma CollectOnce(m: MathLib, items: seq<Item>, s: CarState)
    requires FirstInReach(m, items, s).Some?
    ensures var i := FirstInReach(m, items, s).value;
            var after := AfterCollection(m, items, s);
            FirstInReach(m, after, s).None? || FirstInReach(m, after, s).value > i
  {
    var i := FirstInReach(m, items, s).value;
    var after := AfterCollection(m, items, s);
    assert !InReach(m, after[i], s);
    assert forall j :: 0 <= j < i ==> after[j] == items[j];
  }

  class PowerUpManager {
    const track: Track?
    var powerUps: seq<PowerUp>
    var spawnTimer: real

    ghost predicate Valid()
      reads this
    {
      Distinct(powerUps)
    }

    function Items(): seq<Item>
      reads this, powerUps
    {
      Values(powerUps)
    }

    function State(): Field
      reads this, powerUps
    {
      Field(Items(), spawnTimer)
    }

    /** The path power-ups spawn on; none without a track. */
    function TrackPath(): seq<Point>
    {
      if track == null then [] else track.path
    }

    /** `new PowerUpManager(track)`. */
    constructor (t: Track?)
      ensures Valid() && track == t
      ensures State() == Field([], 0.0)
    {
      track := t;
      powerUps := [];
      spawnTimer := 0.0;
    }

    /** PowerUpManager.update. */
    method Update(m: MathLib, deltaTime: real, d: SpawnDraws)
      requires Valid() && DrawsInRange(d)
      modifies this, powerUps
      ensures Valid()
      ensures State() == ManagerStep(m, TrackPath(), old(State()), deltaTime, d)
      ensures forall p :: p in powerUps ==> p in old(powerUps) || fresh(p)
    {
      SpawnStep(m, deltaTime, d);
      ghost var spawned := Items();
      AgeAll(deltaTime);
      ghost var aged := Items();
      KeepUncollectedValues(powerUps);
      KeepUncollectedDistinct(powerUps);
      powerUps := KeepUncollected(powerUps);
      assert Items() == Uncollected(aged);
    }

    /** The spawn step of PowerUpManager.update. */
    method SpawnStep(m: MathLib, deltaTime: real, d: SpawnDraws)
      requires Valid() && DrawsInRange(d)
      modifies this
      ensures Valid()
      ensures State() == Spawned(m, TrackPath(), old(State()), deltaTime, d)
      ensures forall p :: p in powerUps ==> p in old(powerUps) || fresh(p)
    {
      spawnTimer := spawnTimer + Seconds(deltaTime);
      if spawnTimer >= SpawnInterval && |powerUps| < MaxPowerUps {
        SpawnPowerUp(m, d);
        spawnTimer := 0.0;
      }
    }

    /** The loop of PowerUpManager.update over the power-ups. */
    method AgeAll(deltaTime: real)
      requires Valid()
      modifies set p | p in powerUps
      ensures Items() == AgedAll(old(Items()), deltaTime)
    {
      ghost var before := Items();
      var i := 0;
      while i < |powerUps|
        invariant 0 <= i <= |powerUps|
        invariant forall j :: 0 <= j < |powerUps| ==>
                    powerUps[j].Value() == if j < i then Aged(before[j], deltaTime) else before[j]
      {
        powerUps[i].Update(deltaTime);
        i := i + 1;
      }
    }

    /** PowerUpManager.spawnPowerUp. */
    method SpawnPowerUp(m: MathLib, d: SpawnDraws)
      requires Valid() && DrawsInRange(d)
      modifies this
      ensures Valid()
      ensures spawnTimer == old(spawnTimer)
      ensures Items() == old(Items()) + OptionSeq(SpawnItem(m, TrackPath(), d))
      ensures forall p :: p in powerUps ==> p in old(powerUps) || fresh(p)
    {
      if track == null || |track.path| == 0 {
        return;
      }
      var n := |track.path|;
      var pathIndex := RandomInt(0, n - 1, d.index);
      var pathPoint := track.path[pathIndex];
      var nextPoint := track.path[(pathIndex + 1) % n];
      var x := Lerp(pathPoint.x, nextPoint.x, d.t);
      var y := Lerp(pathPoint.y, nextPoint.y, d.t);
      var dx := nextPoint.x - pathPoint.x;
      var dy := nextPoint.y - pathPoint.y;
      var len := m.sqrt(Sq(dx) + Sq(dy));
      var offset := RandomReal(-TrackWidth / 4.0, TrackWidth / 4.0, d.offset);
      var powerUp;
      if len == 0.0 {
        // The normal is NaN: the power-up is pushed but can never be reached.
        powerUp := new PowerUp(x, y, false, None, d.kind);
      } else {
        var perpX := -dy / len;
        var perpY := dx / len;
        powerUp := new PowerUp(x + Mul(perpX, offset), y + Mul(perpY, offset), true, None, d.kind);
      }
      powerUps := powerUps + [powerUp];
    }

    /** PowerUpManager.checkCollection: the first power-up in reach of the
        car is collected and its type returned; none otherwise. */
    method CheckCollection(m: MathLib, car: Car) returns (collected: Option<PowerUpType>)
      requires Valid()
      modifies powerUps
      ensures Valid()
      ensures Items() == AfterCollection(m, old(Items()), car.State())
      ensures collected.None? <==> FirstInReach(m, old(Items()), car.State()).None?
      ensures collected.Some? ==> collected.value == old(Items())[FirstInReach(m, old(Items()), car.State()).value].kind
    {
      var i := 0;
      while i < |powerUps|
        invariant 0 <= i <= |powerUps|
        invariant forall j :: 0 <= j < i ==> !InReach(m, powerUps[j].Value(), car.State())
      {
        if powerUps[i].CheckCollection(m, car) {
          powerUps[i].Collect();
          return Some(powerUps[i].kind);
        }
        i := i + 1;
      }
      return None;
    }

    /** PowerUpManager.clear. */
    method Clear()
      modifies this
      ensures Valid()
      ensures State() == Field([], 0.0)
    {
      powerUps := [];
      spawnTimer := 0.0;
    }
  }
}
