/** The race controller (js/game.js): starting a race, the tick that runs
    the cars, the track boundary, the car-to-car contacts, the power-ups and
    the checkpoint and lap count in a fixed order, the player's ranking, the
    score and the finish. The frame clock, the held keys, the race time, the
    random draws and the date stamp are parameters. */
module Race {
  import opened Utils
  import opened Cars
  import opened Tracks
  import opened PowerUps
  import opened HighScores

  datatype GameState = Menu | Playing | Paused | GameOver | HighScoresScreen | InstructionsScreen

  /** Laps in a race, and AI opponents. */
  const MaxLaps: int := 3
  const NumAICars: nat := 3

  /** Points for a pickup and for a completed lap. */
  const PickupPoints: int := 100
  const LapPoints: int := 500

  /** Seconds a collected power-up is held and applied to the player's car;
      seconds of slow motion forced on the AI cars; the nitro kick. */
  const HeldDuration: real := 5.0
  const SlowMotionDuration: real := 3.0
  const NitroBoost: real := 100.0

  /** How far from the start the AI cars are placed. */
  const GridRadius: real := 50.0

  /** The race fields of Game; `storage` stands for the browser storage the
      high-score ledger is kept in. */
  datatype RaceVars = RaceVars(
    state: GameState,
    score: int,
    lap: int,
    currentCheckpoint: nat,
    hasPassedStartLine: bool,
    raceTime: real,
    playerPowerUp: Option<PowerUpType>,
    playerPowerUpTimer: real,
    cameraX: real,
    cameraY: real,
    storage: Storage)

  /** Everything one tick reads and writes: the race fields, the player's
      car, the AI cars in order and the power-up field. */
  datatype World = World(race: RaceVars, player: CarState, ais: seq<CarState>, field: Field)

  /** Every AI car is settled. */
  predicate SettledAIs(ais: seq<CarState>)
  {
    forall i :: 0 <= i < |ais| ==> Settled(ais[i], false)
  }

  /** The player's car and every AI car are settled. */
  predicate SettledCars(p: CarState, ais: seq<CarState>)
  {
    Settled(p, true) && SettledAIs(ais)
  }

  /** Each car of a list with the player's car first is settled. */
  predicate AllSettled(cars: seq<CarState>)
  {
    forall i :: 0 <= i < |cars| ==> Settled(cars[i], i == 0)
  }

  lemma Combined(p: CarState, ais: seq<CarState>)
    ensures AllSettled([p] + ais) <==> SettledCars(p, ais)
  {
    var cars := [p] + ais;
    if SettledCars(p, ais) {
      forall i | 0 <= i < |cars|
        ensures Settled(cars[i], i == 0)
      {
        if i > 0 {
          assert cars[i] == ais[i - 1];
        }
      }
    }
    if AllSettled(cars) {
      assert cars[0] == p;
      forall i | 0 <= i < |ais|
        ensures Settled(ais[i], false)
      {
        assert cars[i + 1] == ais[i];
      }
    }
  }

  /** The states of a sequence of cars. */
  function States(cs: seq<Car>): (r: seq<CarState>)
    reads cs
    ensures |r| == |cs|
    ensures forall i :: 0 <= i < |cs| ==> r[i] == cs[i].State()
  {
    seq(|cs|, i requires 0 <= i < |cs| reads cs => cs[i].State())
  }

  // ---------------------------------------------------------------------
  // The car phases of one tick, on states

  /** The AI cars' own updates, with no keys held. */
  function DriveAI(m: MathLib, ais: seq<CarState>, dt: real, path: seq<Point>): (r: seq<CarState>)
    requires SettledAIs(ais)
    ensures |r| == |ais|
    ensures forall i :: 0 <= i < |ais| ==> r[i] == Step(m, ais[i], false, dt, {}, path) && Settled(r[i], false)
  {
    seq(|ais|, i requires 0 <= i < |ais| && Settled(ais[i], false) => Step(m, ais[i], false, dt, {}, path))
  }

  /** Track.handleBoundaryCollision on one car's state: a car off the track
      is slowed and pushed back, and is never sped up. */
  function KeptOnTrack(m: MathLib, path: seq<Point>, s: CarState): (r: CarState)
    ensures OffTrack(m, path, s) ==> r == BoundaryResponse(m, path, s)
    ensures !OffTrack(m, path, s) ==> r == s
    ensures r.maxSpeed == s.maxSpeed
    ensures 0.0 <= s.speed ==> 0.0 <= r.speed <= s.speed
    ensures Settled(s, true) ==> Settled(r, true)
    ensures Settled(s, false) ==> Settled(r, false)
  {
    if OffTrack(m, path, s) then BoundaryResponse(m, path, s) else s
  }

  /** The boundary check of each AI car. */
  function Bounds(m: MathLib, path: seq<Point>, ais: seq<CarState>): (r: seq<CarState>)
    ensures |r| == |ais|
    ensures forall i :: 0 <= i < |ais| ==> r[i] == KeptOnTrack(m, path, ais[i])
  {
    seq(|ais|, i requires 0 <= i < |ais| => KeptOnTrack(m, path, ais[i]))
  }

  /** Car.checkCollision on two states. */
  predicate Overlapping(m: MathLib, a: CarState, b: CarState)
  {
    BoxesOverlap(BoundingBox(Corners(m, a)), BoundingBox(Corners(m, b)))
  }

  /** What one contact check does to the two cars it names. */
  type Contact = (CarState, CarState) -> (CarState, CarState)

  /** Car.checkCollision, then Car.handleCollision when the boxes overlap. */
  function Response(m: MathLib): Contact
  {
    (a: CarState, b: CarState) => if Overlapping(m, a, b) then Bounce(m, a, b) else (a, b)
  }

  /** One contact check between cars `a` and `b` of a list with the player's
      car first. */
  function Collide(f: Contact, cars: seq<CarState>, a: nat, b: nat): (r: seq<CarState>)
    requires a < b < |cars|
    ensures |r| == |cars|
  {
    var p := f(cars[a], cars[b]);
    cars[a := p.0][b := p.1]
  }

  /** A contact check touches only its two cars, changes nothing while
      either of them cools down, and keeps every car settled. */
  lemma CollideFacts(m: MathLib, cars: seq<CarState>, a: nat, b: nat)
    requires a < b < |cars|
    ensures forall k :: 0 <= k < |cars| && k != a && k != b ==> Collide(Response(m), cars, a, b)[k] == cars[k]
    ensures 0.0 < cars[a].collisionCooldown || 0.0 < cars[b].collisionCooldown ==> Collide(Response(m), cars, a, b) == cars
    ensures AllSettled(cars) ==> AllSettled(Collide(Response(m), cars, a, b))
  {
    BounceResponse(m, cars[a], cars[b]);
    var p := Response(m)(cars[a], cars[b]);
    if 0.0 < cars[a].collisionCooldown || 0.0 < cars[b].collisionCooldown {
      assert p == (cars[a], cars[b]);
      assert cars[a := p.0][b := p.1] == cars;
    }
  }

  /** A list of contact checks in the order they are made, each naming two
      cars of a list with the player's car first. */
  datatype Checks = Done | Check(a: nat, b: nat, rest: Checks)

  /** Every check names two cars of a list of `n`, the first before the
      second. */
  predicate ValidChecks(ps: Checks, n: nat)
    decreases ps
  {
    match ps
    case Done => true
    case Check(a, b, rest) => a < b < n && ValidChecks(rest, n)
  }

  /** Whether the checks include the one of cars `a` and `b`. */
  predicate Checked(ps: Checks, a: nat, b: nat)
    decreases ps
  {
    match ps
    case Done => false
    case Check(a', b', rest) => (a' == a && b' == b) || Checked(rest, a, b)
  }

  /** The contact checks of a list, made in order. */
  function RunChecks(f: Contact, cars: seq<CarState>, ps: Checks): (r: seq<CarState>)
    requires ValidChecks(ps, |cars|)
    ensures |r| == |cars|
    decreases ps
  {
    match ps
    case Done => cars
    case Check(a, b, rest) => RunChecks(f, Collide(f, cars, a, b), rest)
  }

  /** The contact checks keep every car settled. */
  lemma {:induction false} RunChecksSettled(m: MathLib, cars: seq<CarState>, ps: Checks)
    requires ValidChecks(ps, |cars|) && AllSettled(cars)
    ensures AllSettled(RunChecks(Response(m), cars, ps))
    decreases ps
  {
    match ps {
      case Done =>
      case Check(a, b, rest) =>
        CollideFacts(m, cars, a, b);
        RunChecksSettled(m, Collide(Response(m), cars, a, b), rest);
    }
  }

  /** The checks of the inner loop of Game.update for AI car `i`, from AI
      car `j` on, followed by `next`: AI car `i` against each later AI car,
      as cars `i + 1` and `j + 1` of the list with the player's car first. */
  function InnerChecks(n: nat, i: nat, j: nat, next: Checks): (r: Checks)
    requires i < j && ValidChecks(next, n + 1)
    ensures ValidChecks(r, n + 1)
    decreases n - j
  {
    if j >= n then next else Check(i + 1, j + 1, InnerChecks(n, i, j + 1, next))
  }

  /** The checks of the outer loop from AI car `i` on: the player against AI
      car `i`, then AI car `i` against the later ones. */
  function ChecksFrom(n: nat, i: nat): (r: Checks)
    ensures ValidChecks(r, n + 1)
    decreases n - i
  {
    if i >= n then Done else Check(0, i + 1, InnerChecks(n, i, i + 1, ChecksFrom(n, i + 1)))
  }

  /** All contact checks of one tick with `n` AI cars. */
  function TickChecks(n: nat): (r: Checks)
    ensures ValidChecks(r, n + 1)
  {
    ChecksFrom(n, 0)
  }

  lemma {:induction false} InnerChecked(n: nat, i: nat, j: nat, next: Checks, a: nat, b: nat)
    requires i < j && ValidChecks(next, n + 1)
    ensures Checked(InnerChecks(n, i, j, next), a, b) <==> (a == i + 1 && j < b <= n) || Checked(next, a, b)
    decreases n - j
  {
    if j < n {
      InnerChecked(n, i, j + 1, next, a, b);
    }
  }

  lemma {:induction false} CheckedFrom(n: nat, i: nat, a: nat, b: nat)
    ensures Checked(ChecksFrom(n, i), a, b) <==> (a == 0 && i < b <= n) || (i < a < b <= n)
    decreases n - i
  {
    if i < n {
      InnerChecked(n, i, i + 1, ChecksFrom(n, i + 1), a, b);
      CheckedFrom(n, i + 1, a, b);
    }
  }

  /** One tick checks every pair of cars, the player's car (0) and the AI
      cars (1 to `n`), and no other pair. */
  lemma EveryPairChecked(n: nat, a: nat, b: nat)
    ensures Checked(TickChecks(n), a, b) <==> a < b <= n
  {
    CheckedFrom(n, 0, a, b);
  }

  /** Whether the check of cars `a` and `b` is an effective response for car
      `k`: `k` is one of them, their boxes overlap and neither cools down. */
  predicate Effective(m: MathLib, cars: seq<CarState>, a: nat, b: nat, k: nat)
    requires a < b < |cars|
  {
    && (a == k || b == k)
    && Overlapping(m, cars[a], cars[b])
    && cars[a].collisionCooldown <= 0.0 && cars[b].collisionCooldown <= 0.0
  }

  /** How many effective collision responses car `k` takes part in during
      the checks of `ps`. */
  function Responses(m: MathLib, cars: seq<CarState>, ps: Checks, k: nat): nat
    requires ValidChecks(ps, |cars|)
    decreases ps
  {
    match ps
    case Done => 0
    case Check(a, b, rest) =>
      (if Effective(m, cars, a, b, k) then 1 else 0) + Responses(m, Collide(Response(m), cars, a, b), rest, k)
  }

  /** A car that is cooling down is left alone by the rest of the checks and
      takes part in no response. */
  lemma {:induction false} CoolingCarFrozen(m: MathLib, cars: seq<CarState>, ps: Checks, k: nat)
    requires ValidChecks(ps, |cars|) && k < |cars|
    requires 0.0 < cars[k].collisionCooldown
    ensures RunChecks(Response(m), cars, ps)[k] == cars[k]
    ensures Responses(m, cars, ps, k) == 0
    decreases ps
  {
    match ps {
      case Done =>
      case Check(a, b, rest) =>
        CollideFacts(m, cars, a, b);
        CoolingCarFrozen(m, Collide(Response(m), cars, a, b), rest, k);
    }
  }

  /** Within one pass each car takes part in at most one effective
      response: the first one sets its cooldown to 0.5. */
  lemma {:induction false} AtMostOneResponse(m: MathLib, cars: seq<CarState>, ps: Checks, k: nat)
    requires ValidChecks(ps, |cars|) && k < |cars|
    ensures Responses(m, cars, ps, k) <= 1
    decreases ps
  {
    match ps {
      case Done =>
      case Check(a, b, rest) =>
        var next := Collide(Response(m), cars, a, b);
        if Effective(m, cars, a, b, k) {
          BounceResponse(m, cars[a], cars[b]);
          assert next[k].collisionCooldown == 0.5;
          CoolingCarFrozen(m, next, rest, k);
        } else {
          AtMostOneResponse(m, next, rest, k);
        }
    }
  }

  /** One check of the player's car against AI car `i`, on states. */
  function CollidePlayer(f: Contact, p: CarState, ais: seq<CarState>, i: nat): (r: (CarState, seq<CarState>))
    requires i < |ais|
    ensures |r.1| == |ais|
  {
    var b := f(p, ais[i]);
    (b.0, ais[i := b.1])
  }

  /** With the player's car in front, that is the check of cars 0 and
      `i + 1`. */
  lemma CollidePlayerAt(f: Contact, p: CarState, ais: seq<CarState>, i: nat)
    requires i < |ais|
    ensures var r := CollidePlayer(f, p, ais, i); [r.0] + r.1 == Collide(f, [p] + ais, 0, i + 1)
  {
    var cars := [p] + ais;
    assert cars[i + 1] == ais[i];
    var b := f(p, ais[i]);
    assert [b.0] + ais[i := b.1] == cars[0 := b.0][i + 1 := b.1];
  }

  /** One check of AI car `i` against AI car `j`, on the AI cars' states. */
  function CollideAI(f: Contact, ais: seq<CarState>, i: nat, j: nat): (r: seq<CarState>)
    requires i < j < |ais|
    ensures |r| == |ais|
  {
    var b := f(ais[i], ais[j]);
    ais[i := b.0][j := b.1]
  }

  /** With the player's car in front, that is the check of cars `i + 1` and
      `j + 1`. */
  lemma CollideAIAt(f: Contact, p: CarState, ais: seq<CarState>, i: nat, j: nat)
    requires i < j < |ais|
    ensures [p] + CollideAI(f, ais, i, j) == Collide(f, [p] + ais, i + 1, j + 1)
  {
    var cars := [p] + ais;
    assert cars[i + 1] == ais[i] && cars[j + 1] == ais[j];
    var b := f(ais[i], ais[j]);
    assert [p] + ais[i := b.0][j := b.1] == cars[i + 1 := b.0][j + 1 := b.1];
  }

  /** The inner loop of the car-to-car checks from AI car `j` on: AI car `i`
      against each later AI car, in order. */
  function InnerPass(f: Contact, ais: seq<CarState>, i: nat, j: nat): (r: seq<CarState>)
    requires i < j
    ensures |r| == |ais|
    decreases |ais| - j
  {
    if j >= |ais| then ais else InnerPass(f, CollideAI(f, ais, i, j), i, j + 1)
  }

  /** The outer loop from AI car `i` on: the player against AI car `i`, then
      the inner loop for AI car `i`. */
  function OuterPass(f: Contact, p: CarState, ais: seq<CarState>, i: nat): (r: (CarState, seq<CarState>))
    ensures |r.1| == |ais|
    decreases |ais| - i
  {
    if i >= |ais| then (p, ais)
    else
      var c := CollidePlayer(f, p, ais, i);
      OuterPass(f, c.0, InnerPass(f, c.1, i, i + 1), i + 1)
  }

  /** The inner loop makes the checks of InnerChecks. */
  lemma {:induction false} InnerPassChecks(f: Contact, p: CarState, ais: seq<CarState>, i: nat, j: nat, next: Checks)
    requires i < j && ValidChecks(next, |ais| + 1)
    ensures RunChecks(f, [p] + ais, InnerChecks(|ais|, i, j, next))
         == RunChecks(f, [p] + InnerPass(f, ais, i, j), next)
    decreases |ais| - j
  {
    if j < |ais| {
      CollideAIAt(f, p, ais, i, j);
      InnerPassChecks(f, p, CollideAI(f, ais, i, j), i, j + 1, next);
    }
  }

  /** The two loops make the checks of ChecksFrom, in order. */
  lemma {:induction false} PassChecks(f: Contact, p: CarState, ais: seq<CarState>, i: nat)
    ensures var r := OuterPass(f, p, ais, i);
            [r.0] + r.1 == RunChecks(f, [p] + ais, ChecksFrom(|ais|, i))
    decreases |ais| - i
  {
    if i < |ais| {
      var c := CollidePlayer(f, p, ais, i);
      CollidePlayerAt(f, p, ais, i);
      InnerPassChecks(f, c.0, c.1, i, i + 1, ChecksFrom(|ais|, i + 1));
      PassChecks(f, c.0, InnerPass(f, c.1, i, i + 1), i + 1);
    }
  }

  /** The car phases of Game.update: each car's own update, then the
      boundary check of each car, then the contact checks; the result is
      the player's car and the AI cars. */
  function CarPhase(m: MathLib, path: seq<Point>, p: CarState, ais: seq<CarState>, dt: real, keys: set<string>)
    : (r: (CarState, seq<CarState>))
    requires SettledCars(p, ais)
    ensures |r.1| == |ais|
    ensures SettledCars(r.0, r.1)
  {
    var p1 := KeptOnTrack(m, path, Step(m, p, true, dt, keys, path));
    var a1 := Bounds(m, path, DriveAI(m, ais, dt, path));
    var r := OuterPass(Response(m), p1, a1, 0);
    PassChecks(Response(m), p1, a1, 0);
    Combined(p1, a1);
    RunChecksSettled(m, [p1] + a1, TickChecks(|ais|));
    Combined(r.0, r.1);
    r
  }

  /** The car phases are the tick's contact checks after each car's own
      update and boundary check. */
  lemma CarPhaseChecks(m: MathLib, path: seq<Point>, p: CarState, ais: seq<CarState>, dt: real, keys: set<string>)
    requires SettledCars(p, ais)
    ensures var r := CarPhase(m, path, p, ais, dt, keys);
            var p1 := KeptOnTrack(m, path, Step(m, p, true, dt, keys, path));
            var a1 := Bounds(m, path, DriveAI(m, ais, dt, path));
            [r.0] + r.1 == RunChecks(Response(m), [p1] + a1, TickChecks(|ais|))
  {
    var p1 := KeptOnTrack(m, path, Step(m, p, true, dt, keys, path));
    var a1 := Bounds(m, path, DriveAI(m, ais, dt, path));
    PassChecks(Response(m), p1, a1, 0);
  }

  // ---------------------------------------------------------------------
  // Power-ups held by the player

  /** The power-up type the player collects this tick, if any. */
  function PickedKind(m: MathLib, items: seq<Item>, player: CarState): (kind: Option<PowerUpType>)
    ensures kind.None? <==> FirstInReach(m, items, player).None?
    ensures kind.Some? ==> kind.value == items[FirstInReach(m, items, player).value].kind
  {
    match FirstInReach(m, items, player)
    case None => None
    case Some(i) => Some(items[i].kind)
  }

  /** A pickup: hold the type for 5 s and score 100. */
  function AfterPickup(r: RaceVars, kind: Option<PowerUpType>): (r': RaceVars)
    ensures kind.None? ==> r' == r
    ensures kind.Some? ==> r' == r.(playerPowerUp := kind, playerPowerUpTimer := HeldDuration, score := r.score + PickupPoints)
  {
    if kind.Some? then r.(playerPowerUp := kind, playerPowerUpTimer := HeldDuration, score := r.score + PickupPoints)
    else r
  }

  /** A collected power-up is applied to the player's car for 5 s. */
  function Held(p: CarState, kind: Option<PowerUpType>): (q: CarState)
    ensures kind.None? ==> q == p
    ensures kind.Some? ==> q == p.(powerUpActive := kind, powerUpTimer := HeldDuration)
  {
    if kind.Some? then p.(powerUpActive := kind, powerUpTimer := HeldDuration) else p
  }

  /** The held power-up's countdown: while its timer is positive it drops
      by `dt`, and the held type is let go once it reaches 0. */
  function HeldCountdown(r: RaceVars, dt: real): (r': RaceVars)
    ensures r.playerPowerUpTimer <= 0.0 ==> r' == r
    ensures 0.0 < r.playerPowerUpTimer ==> r'.playerPowerUpTimer == r.playerPowerUpTimer - dt
    ensures 0.0 < r.playerPowerUpTimer && r'.playerPowerUpTimer <= 0.0 ==> r'.playerPowerUp == None
    ensures 0.0 < r'.playerPowerUpTimer ==> r'.playerPowerUp == r.playerPowerUp
    ensures r'.(playerPowerUp := r.playerPowerUp, playerPowerUpTimer := r.playerPowerUpTimer) == r
  {
    if 0.0 < r.playerPowerUpTimer then
      var t := r.playerPowerUpTimer - dt;
      if t <= 0.0 then r.(playerPowerUpTimer := t, playerPowerUp := None) else r.(playerPowerUpTimer := t)
    else r
  }

  /** The pickup step of Game.update: the first power-up in the player's
      reach is collected, held and applied, and scores. */
  function Pickup(m: MathLib, w: World): (r: World)
    ensures r.ais == w.ais && |r.field.items| == |w.field.items|
    ensures r.race.score >= w.race.score
    ensures r.race.(score := w.race.score, playerPowerUp := w.race.playerPowerUp,
                    playerPowerUpTimer := w.race.playerPowerUpTimer) == w.race
    ensures Settled(w.player, true) ==> Settled(r.player, true)
  {
    var kind := PickedKind(m, w.field.items, w.player);
    World(AfterPickup(w.race, kind), Held(w.player, kind), w.ais,
          Field(AfterCollection(m, w.field.items, w.player), w.field.spawnTimer))
  }

  /** The held power-up's countdown and PowerUpManager.update. */
  function Timers(m: MathLib, path: seq<Point>, w: World, deltaTime: real, d: SpawnDraws): (r: World)
    requires DrawsInRange(d)
    ensures r.player == w.player && r.ais == w.ais
    ensures r.race.(playerPowerUp := w.race.playerPowerUp, playerPowerUpTimer := w.race.playerPowerUpTimer) == w.race
    ensures |w.field.items| <= MaxPowerUps ==> |r.field.items| <= MaxPowerUps
  {
    World(HeldCountdown(w.race, Seconds(deltaTime)), w.player, w.ais, ManagerStep(m, path, w.field, deltaTime, d))
  }

  // ---------------------------------------------------------------------
  // Ranking, score and finish

  /** The progress measure of Game.getPlayerPosition for one car, computed
      with the player's lap count for every car. */
  function Progress(m: MathLib, cps: seq<Checkpoint>, lap: int, s: CarState): real
    requires |cps| > 0
  {
    var k := NearestCheckpoint(m, cps, s.x, s.y);
    lap as real * 1000.0 + k as real * 100.0 + Distance(m, s.x, s.y, cps[k].x, cps[k].y)
  }

  /** How many AI cars are strictly ahead of the player. */
  function CarsAhead(m: MathLib, cps: seq<Checkpoint>, lap: int, player: CarState, ais: seq<CarState>): (n: nat)
    requires |cps| > 0
    ensures n <= |ais|
  {
    if |ais| == 0 then 0
    else
      CarsAhead(m, cps, lap, player, ais[..|ais| - 1])
      + (if Progress(m, cps, lap, ais[|ais| - 1]) > Progress(m, cps, lap, player) then 1 else 0)
  }

  /** Game.getPlayerPosition: 1 plus the AI cars ahead. */
  function Rank(m: MathLib, cps: seq<Checkpoint>, lap: int, player: CarState, ais: seq<CarState>): (r: int)
    requires |cps| > 0
    ensures 1 <= r <= |ais| + 1
  {
    1 + CarsAhead(m, cps, lap, player, ais)
  }

  /** Because every car's progress uses the same lap count, the lap count
      never changes the ranking. */
  lemma {:induction false} RankIgnoresLap(m: MathLib, cps: seq<Checkpoint>, lap1: int, lap2: int,
                                         player: CarState, ais: seq<CarState>)
    requires |cps| > 0
    ensures Rank(m, cps, lap1, player, ais) == Rank(m, cps, lap2, player, ais)
  {
    AheadIgnoresLap(m, cps, lap1, lap2, player, ais);
  }

  /** The count over the first `i + 1` AI cars adds car `i` to the count
      over the first `i`. */
  lemma AheadStep(m: MathLib, cps: seq<Checkpoint>, lap: int, player: CarState, ais: seq<CarState>, i: nat)
    requires |cps| > 0 && i < |ais|
    ensures CarsAhead(m, cps, lap, player, ais[..i + 1])
         == CarsAhead(m, cps, lap, player, ais[..i])
            + (if Progress(m, cps, lap, ais[i]) > Progress(m, cps, lap, player) then 1 else 0)
  {
    assert ais[..i + 1][..i] == ais[..i];
  }

  lemma {:induction false} AheadIgnoresLap(m: MathLib, cps: seq<Checkpoint>, lap1: int, lap2: int,
                                          player: CarState, ais: seq<CarState>)
    requires |cps| > 0
    ensures CarsAhead(m, cps, lap1, player, ais) == CarsAhead(m, cps, lap2, player, ais)
  {
    if |ais| > 0 {
      AheadIgnoresLap(m, cps, lap1, lap2, player, ais[..|ais| - 1]);
    }
  }

  /** The points for speed: floor of a tenth of the absolute speed. */
  function SpeedPoints(speed: real): (p: int)
    ensures 0 <= p
  {
    (Abs(speed) * 0.1).Floor
  }

  /** Game.updateScore: points for speed plus 10 per place ahead of last
      but one, so at least 10 on every tick. */
  function ScoreTick(m: MathLib, cps: seq<Checkpoint>, r: RaceVars, p: CarState, ais: seq<CarState>): (r': RaceVars)
    requires |cps| > 0
    ensures r'.score >= r.score + 10
    ensures r'.(score := r.score) == r
  {
    r.(score := r.score + SpeedPoints(p.speed) + (|ais| + 2 - Rank(m, cps, r.lap, p, ais)) * 10)
  }

  /** The time bonus of Game.finishRace: 10000 less ten points a second,
      never below 0. */
  function TimeBonus(raceTime: real): (b: int)
    ensures 0 <= b
    ensures 0.0 <= raceTime ==> b <= 10000
  {
    var t := 10000 - (raceTime * 10.0).Floor;
    if t > 0 then t else 0
  }

  /** The final score of Game.finishRace, for the player's place among
      aiCount + 1 cars: the time bonus and 500 per place ahead of last but
      one are added. */
  function FinalScore(r: RaceVars, rank: int, aiCount: int): (score: int)
    ensures 1 <= rank <= aiCount + 1 ==> score >= r.score + 500
  {
    r.score + TimeBonus(r.raceTime) + (aiCount + 2 - rank) * 500
  }

  /** Game.finishRace: the race is over with the final score, and the
      score enters the ledger. */
  function Finished(r: RaceVars, rank: int, aiCount: int, date: string): (r': RaceVars)
    ensures r'.state == GameOver
    ensures r'.score == FinalScore(r, rank, aiCount)
    ensures r'.(state := r.state, score := r.score, storage := r.storage) == r
  {
    var total := FinalScore(r, rank, aiCount);
    r.(state := GameOver, score := total, storage := Stored(Ledger(r.storage, total, r.raceTime, rank, date)))
  }

  /** The checkpoint and lap step of Game.update. */
  function LapStep(m: MathLib, cps: seq<Checkpoint>, r: RaceVars, p: CarState, ais: seq<CarState>, date: string)
    : (r': RaceVars)
    requires |cps| > 0
    ensures 1 <= r.lap <= MaxLaps ==> 1 <= r'.lap <= MaxLaps
    ensures r'.score >= r.score
    ensures r'.lap == r.lap || (r'.lap == r.lap + 1 && r'.currentCheckpoint == 0 && r'.score == r.score + LapPoints)
    ensures r'.state == r.state || (r'.state == GameOver && r'.currentCheckpoint == 0 && r.lap == MaxLaps)
    ensures r'.currentCheckpoint == Advance(m, cps, p.x, p.y, r.currentCheckpoint)
    ensures r'.currentCheckpoint != r.currentCheckpoint && r'.currentCheckpoint == 0 && 1 <= r.lap <= MaxLaps ==>
              r'.lap == r.lap + 1 || r'.state == GameOver
    ensures r'.currentCheckpoint == r.currentCheckpoint ==> r' == r
  {
    var next := Advance(m, cps, p.x, p.y, r.currentCheckpoint);
    if next == r.currentCheckpoint then r
    else
      var passed := if next == 0 then true else r.hasPassedStartLine;
      var r1 := r.(hasPassedStartLine := passed, currentCheckpoint := next);
      if next == 0 && passed then
        if r.lap < MaxLaps then r1.(lap := r.lap + 1, score := r.score + LapPoints)
        else if r.lap == MaxLaps then Finished(r1, Rank(m, cps, r1.lap, p, ais), |ais|, date)
        else r1
      else r1
  }

  /** The end of Game.update: the checkpoint and lap step, the score and
      the camera on the player's car. */
  function Standing(m: MathLib, cps: seq<Checkpoint>, r: RaceVars, p: CarState, ais: seq<CarState>, date: string)
    : (r': RaceVars)
    requires |cps| > 0
    ensures 1 <= r.lap <= MaxLaps ==> 1 <= r'.lap <= MaxLaps
    ensures r'.score >= r.score + 10
    ensures r'.state == r.state || r'.state == GameOver
    ensures r'.lap == r.lap || (r'.lap == r.lap + 1 && r'.currentCheckpoint == 0)
    ensures r'.cameraX == p.x && r'.cameraY == p.y
  {
    var r1 := ScoreTick(m, cps, LapStep(m, cps, r, p, ais, date), p, ais);
    r1.(cameraX := p.x, cameraY := p.y)
  }

  /** The race clock and the car phases of Game.update. */
  function Driven(m: MathLib, path: seq<Point>, w: World, deltaTime: real, now: real, keys: set<string>): (r: World)
    requires SettledCars(w.player, w.ais)
    ensures |r.ais| == |w.ais|
    ensures SettledCars(r.player, r.ais) && r.field == w.field
  {
    var c := CarPhase(m, path, w.player, w.ais, Seconds(deltaTime), keys);
    World(w.race.(raceTime := now), c.0, c.1, w.field)
  }

  /** Game.update on the whole world: nothing unless the race is on;
      otherwise the race clock, the cars, the pickup, the held power-up,
      the field, the checkpoint and lap, the score and the camera, in that
      order. */
  function Tick(m: MathLib, path: seq<Point>, cps: seq<Checkpoint>, w: World, deltaTime: real, now: real,
                keys: set<string>, d: SpawnDraws, date: string): (r: World)
    requires |cps| > 0 && SettledCars(w.player, w.ais) && DrawsInRange(d)
    ensures |r.ais| == |w.ais|
  {
    if w.race.state != Playing then w
    else
      var w1 := Timers(m, path, Pickup(m, Driven(m, path, w, deltaTime, now, keys)), deltaTime, d);
      w1.(race := Standing(m, cps, w1.race, w1.player, w1.ais, date))
  }

  /** A tick keeps every car settled and the power-up field within its
      bound; it changes nothing unless the race is on, and otherwise the
      race stays on or ends, scores at least 10 and moves the lap count on
      by at most one, into checkpoint 0. */
  lemma TickFacts(m: MathLib, path: seq<Point>, cps: seq<Checkpoint>, w: World, deltaTime: real, now: real,
                  keys: set<string>, d: SpawnDraws, date: string)
    requires |cps| > 0 && SettledCars(w.player, w.ais) && DrawsInRange(d)
    ensures var r := Tick(m, path, cps, w, deltaTime, now, keys, d, date);
            && SettledCars(r.player, r.ais)
            && (w.race.state != Playing ==> r == w)
            && (w.race.state == Playing ==> r.race.state == Playing || r.race.state == GameOver)
            && (w.race.state == Playing ==> r.race.score >= w.race.score + 10)
            && (1 <= w.race.lap <= MaxLaps ==> 1 <= r.race.lap <= MaxLaps)
            && (r.race.lap == w.race.lap || (r.race.lap == w.race.lap + 1 && r.race.currentCheckpoint == 0))
            && (|w.field.items| <= MaxPowerUps ==> |r.field.items| <= MaxPowerUps)
  {
  }

  /** A finished race stays finished: later ticks change nothing. */
  lemma GameOverIsFinal(m: MathLib, path: seq<Point>, cps: seq<Checkpoint>, w: World, deltaTime: real, now: real,
                        keys: set<string>, d: SpawnDraws, date: string)
    requires |cps| > 0 && SettledCars(w.player, w.ais) && DrawsInRange(d)
    requires Tick(m, path, cps, w, deltaTime, now, keys, d, date).race.state == GameOver
    ensures var w1 := Tick(m, path, cps, w, deltaTime, now, keys, d, date);
            SettledCars(w1.player, w1.ais) && Tick(m, path, cps, w1, deltaTime, now, keys, d, date) == w1
  {
    TickFacts(m, path, cps, w, deltaTime, now, keys, d, date);
  }

  /** Slow motion for 3 s on every AI car. */
  function SlowAI(ais: seq<CarState>): (r: seq<CarState>)
    ensures |r| == |ais|
    ensures forall i :: 0 <= i < |ais| ==>
              r[i] == ais[i].(powerUpActive := Some(SlowMotion), powerUpTimer := SlowMotionDuration)
  {
    seq(|ais|, i requires 0 <= i < |ais| => ais[i].(powerUpActive := Some(SlowMotion), powerUpTimer := SlowMotionDuration))
  }

  /** Game.usePowerUp on the car states: nitro lifts the player's speed by
      100 up to its cap; slow motion puts every AI car in slow motion; the
      other types do nothing to the cars. Every car stays settled. */
  function UseEffect(p: CarState, ais: seq<CarState>, kind: PowerUpType): (r: (CarState, seq<CarState>))
    ensures kind == Nitro ==> r == (p.(speed := Min(p.speed + NitroBoost, p.maxSpeed)), ais)
    ensures kind == SlowMotion ==> r == (p, SlowAI(ais))
    ensures kind != Nitro && kind != SlowMotion ==> r == (p, ais)
    ensures SettledCars(p, ais) ==> SettledCars(r.0, r.1)
  {
    match kind
    case Nitro => (p.(speed := Min(p.speed + NitroBoost, p.maxSpeed)), ais)
    case SlowMotion => (p, SlowAI(ais))
    case _ => (p, ais)
  }

  /** Game.usePowerUp on the world: only with a held power-up whose timer
      is positive, its effect on the cars, and then nothing is held. */
  function UseHeld(w: World): (r: World)
    ensures !(w.race.playerPowerUp.Some? && 0.0 < w.race.playerPowerUpTimer) ==> r == w
    ensures w.race.playerPowerUp.Some? && 0.0 < w.race.playerPowerUpTimer ==>
              && r.race == w.race.(playerPowerUp := None, playerPowerUpTimer := 0.0)
              && (r.player, r.ais) == UseEffect(w.player, w.ais, w.race.playerPowerUp.value)
              && r.field == w.field
    ensures SettledCars(w.player, w.ais) ==> SettledCars(r.player, r.ais)
  {
    if w.race.playerPowerUp.Some? && 0.0 < w.race.playerPowerUpTimer then
      var c := UseEffect(w.player, w.ais, w.race.playerPowerUp.value);
      World(w.race.(playerPowerUp := None, playerPowerUpTimer := 0.0), c.0, c.1, w.field)
    else w
  }

  /** The path index an AI car starts at: `floor(len * (i / 3))`. */
  function StartIndex(n: nat, i: nat): (k: nat)
    requires i < NumAICars
    ensures 0 < n ==> k < n
  {
    var f := i as real / NumAICars as real;
    ScaleBelow(f, n as real);
    MulCommutes(n as real, f);
    MulMonotone(0.0, f, n as real);
    Mul(n as real, f).Floor
  }

  /** AI car `i` on the starting grid: on a circle of radius 50 around the
      start, at a quarter turn per car, facing the start direction. */
  function GridCar(m: MathLib, startX: real, startY: real, startAngle: real, n: nat, i: nat): (s: CarState)
    requires i < NumAICars
    ensures Settled(s, false)
    ensures 0 < n ==> s.aiPathIndex < n
  {
    var offsetAngle := (i + 1) as real * (PI * 2.0 / (NumAICars + 1) as real);
    CarState(startX + m.cos(offsetAngle) * GridRadius, startY + m.sin(offsetAngle) * GridRadius, startAngle,
             0.0, BaseMaxSpeed(false), None, 0.0, 0.0, 0.0, StartIndex(n, i))
  }

  /** The AI cars of Game.start. */
  function Grid(m: MathLib, startX: real, startY: real, startAngle: real, n: nat): (g: seq<CarState>)
    ensures |g| == NumAICars
    ensures forall i :: 0 <= i < NumAICars ==> g[i] == GridCar(m, startX, startY, startAngle, n, i)
  {
    seq(NumAICars, i requires 0 <= i < NumAICars => GridCar(m, startX, startY, startAngle, n, i))
  }

  // ---------------------------------------------------------------------
  // The car objects of a race

  /** The AI cars: none is the player's, and no car is listed twice. */
  predicate Crew(ais: seq<Car>)
  {
    && (forall i :: 0 <= i < |ais| ==> !ais[i].isPlayer)
    && (forall i, j :: 0 <= i < j < |ais| ==> ais[i] != ais[j])
  }

  /** The player's car and the AI cars of a race: distinct objects, each in
      its role. */
  predicate Roles(player: Car, ais: seq<Car>)
  {
    player.isPlayer && player !in ais && Crew(ais)
  }

  /** The AI-car loop of the car updates in Game.update. */
  method DriveAIs(m: MathLib, ais: seq<Car>, deltaTime: real, path: seq<Point>)
    requires Crew(ais) && SettledAIs(States(ais))
    modifies ais
    ensures States(ais) == DriveAI(m, old(States(ais)), Seconds(deltaTime), path)
  {
    ghost var a0 := States(ais);
    var i := 0;
    while i < |ais|
      invariant 0 <= i <= |ais|
      invariant forall j :: 0 <= j < |ais| ==>
                  ais[j].State() == if j < i then Step(m, a0[j], false, Seconds(deltaTime), {}, path) else a0[j]
    {
      ais[i].Update(m, deltaTime, {}, path);
      i := i + 1;
    }
  }

  /** The car updates of Game.update: the player's car with the held keys,
      then each AI car with none. */
  method DriveCars(m: MathLib, player: Car, ais: seq<Car>, deltaTime: real, keys: set<string>, path: seq<Point>)
    requires Roles(player, ais) && SettledCars(player.State(), States(ais))
    modifies player, ais
    ensures player.State() == Step(m, old(player.State()), true, Seconds(deltaTime), keys, path)
    ensures States(ais) == DriveAI(m, old(States(ais)), Seconds(deltaTime), path)
  {
    ghost var a0 := States(ais);
    player.Update(m, deltaTime, keys, path);
    assert States(ais) == a0;
    DriveAIs(m, ais, deltaTime, path);
  }

  /** The AI-car loop of the boundary checks in Game.update. */
  method BoundAIs(m: MathLib, track: Track, ais: seq<Car>)
    requires Crew(ais)
    modifies ais
    ensures States(ais) == Bounds(m, track.path, old(States(ais)))
  {
    ghost var a0 := States(ais);
    var i := 0;
    while i < |ais|
      invariant 0 <= i <= |ais|
      invariant forall j :: 0 <= j < |ais| ==>
                  ais[j].State() == if j < i then KeptOnTrack(m, track.path, a0[j]) else a0[j]
    {
      var hit := track.HandleBoundaryCollision(m, ais[i]);
      i := i + 1;
    }
  }

  /** The boundary checks of Game.update: the player's car, then each AI
      car. */
  method KeepCarsOnTrack(m: MathLib, track: Track, player: Car, ais: seq<Car>)
    requires Roles(player, ais)
    modifies player, ais
    ensures player.State() == KeptOnTrack(m, track.path, old(player.State()))
    ensures States(ais) == Bounds(m, track.path, old(States(ais)))
  {
    ghost var a0 := States(ais);
    var hit := track.HandleBoundaryCollision(m, player);
    assert States(ais) == a0;
    BoundAIs(m, track, ais);
  }

  /** One check of the player's car against AI car `i`. */
  method ContactPlayer(m: MathLib, player: Car, ais: seq<Car>, i: nat)
    requires Roles(player, ais) && i < |ais|
    modifies player, ais[i]
    ensures (player.State(), States(ais)) == CollidePlayer(Response(m), old(player.State()), old(States(ais)), i)
  {
    ghost var a0 := States(ais);
    if player.CheckCollision(m, ais[i]) {
      player.HandleCollision(m, ais[i]);
      assert States(ais) == a0[i := ais[i].State()];
    } else {
      assert a0[i := a0[i]] == a0;
    }
  }

  /** One check of AI car `i` against AI car `j`. */
  method ContactAI(m: MathLib, ais: seq<Car>, i: nat, j: nat)
    requires Crew(ais) && i < j < |ais|
    modifies ais[i], ais[j]
    ensures States(ais) == CollideAI(Response(m), old(States(ais)), i, j)
  {
    ghost var a0 := States(ais);
    if ais[i].CheckCollision(m, ais[j]) {
      ais[i].HandleCollision(m, ais[j]);
      assert States(ais) == a0[i := ais[i].State()][j := ais[j].State()];
    }
  }

  /** The inner loop of the car-to-car checks: AI car `i` against each
      later AI car. */
  method ContactLater(m: MathLib, ais: seq<Car>, i: nat)
    requires Crew(ais) && i < |ais|
    modifies ais
    ensures States(ais) == InnerPass(Response(m), old(States(ais)), i, i + 1)
  {
    var n := |ais|;
    ghost var goal := InnerPass(Response(m), States(ais), i, i + 1);
    var j := i + 1;
    while j < n
      invariant i + 1 <= j <= n
      invariant InnerPass(Response(m), States(ais), i, j) == goal
    {
      ContactAI(m, ais, i, j);
      j := j + 1;
    }
  }

  /** One turn of the outer loop: the player against AI car `i`, then AI car
      `i` against the later ones. */
  method ContactRound(m: MathLib, player: Car, ais: seq<Car>, i: nat)
    requires Roles(player, ais) && i < |ais|
    modifies player, ais
    ensures OuterPass(Response(m), player.State(), States(ais), i + 1) == OuterPass(Response(m), old(player.State()), old(States(ais)), i)
  {
    ContactPlayer(m, player, ais, i);
    ContactLater(m, ais, i);
  }

  /** The car-to-car loops of Game.update. */
  method ResolveCollisions(m: MathLib, player: Car, ais: seq<Car>)
    requires Roles(player, ais)
    modifies player, ais
    ensures (player.State(), States(ais)) == OuterPass(Response(m), old(player.State()), old(States(ais)), 0)
  {
    var n := |ais|;
    var i := 0;
    while i < n
      invariant 0 <= i <= n
      invariant OuterPass(Response(m), player.State(), States(ais), i) == OuterPass(Response(m), old(player.State()), old(States(ais)), 0)
    {
      ContactRound(m, player, ais, i);
      i := i + 1;
    }
  }

  /** The three car phases of Game.update in order. */
  method RunCars(m: MathLib, track: Track, player: Car, ais: seq<Car>, deltaTime: real, keys: set<string>,
                 path: seq<Point>, ghost p0: CarState, ghost a0: seq<CarState>)
    requires Roles(player, ais) && SettledCars(p0, a0)
    requires track.path == path && player.State() == p0 && States(ais) == a0
    modifies player, ais
    ensures player.State() == CarPhase(m, path, p0, a0, Seconds(deltaTime), keys).0
    ensures States(ais) == CarPhase(m, path, p0, a0, Seconds(deltaTime), keys).1
    ensures SettledCars(player.State(), States(ais))
  {
    DriveCars(m, player, ais, deltaTime, keys, path);
    KeepCarsOnTrack(m, track, player, ais);
    ResolveCollisions(m, player, ais);
  }

  /** The slow-motion loop of Game.usePowerUp over the AI cars. */
  method SlowAll(ais: seq<Car>)
    requires Crew(ais)
    modifies ais
    ensures States(ais) == SlowAI(old(States(ais)))
  {
    ghost var a0 := States(ais);
    var i := 0;
    while i < |ais|
      invariant 0 <= i <= |ais|
      invariant forall j :: 0 <= j < |ais| ==>
                  ais[j].State() == if j < i then a0[j].(powerUpActive := Some(SlowMotion), powerUpTimer := SlowMotionDuration)
                                    else a0[j]
    {
      ais[i].ApplyPowerUp(SlowMotion, SlowMotionDuration);
      i := i + 1;
    }
  }

  /** The effect of a used power-up on the cars (Game.usePowerUp). */
  method ApplyEffect(player: Car, ais: seq<Car>, kind: PowerUpType)
    requires Roles(player, ais)
    modifies player, ais
    ensures (player.State(), States(ais)) == UseEffect(old(player.State()), old(States(ais)), kind)
  {
    match kind {
      case Nitro =>
        ghost var a0 := States(ais);
        player.speed := Min(player.speed + NitroBoost, player.maxSpeed);
        assert States(ais) == a0;
      case SlowMotion =>
        SlowAll(ais);
      case _ =>
    }
  }

  /** One car's progress, as Game.getPlayerPosition computes it. */
  method CarProgress(m: MathLib, track: Track, lap: int, car: Car) returns (progress: real)
    requires |track.checkpoints| > 0
    ensures progress == Progress(m, track.checkpoints, lap, car.State())
  {
    var k := track.GetCurrentCheckpoint(m, car);
    var cp := track.checkpoints[k];
    progress := lap as real * 1000.0 + k as real * 100.0 + Distance(m, car.x, car.y, cp.x, cp.y);
  }

  /** Game.getPlayerPosition: a counting loop over the AI cars. */
  method GetPlayerPosition(m: MathLib, track: Track, lap: int, player: Car, ais: seq<Car>) returns (position: int)
    requires |track.checkpoints| > 0
    ensures position == Rank(m, track.checkpoints, lap, player.State(), States(ais))
  {
    position := 1;
    var playerProgress := CarProgress(m, track, lap, player);
    ghost var rest := States(ais);
    var i := 0;
    while i < |ais|
      invariant 0 <= i <= |ais|
      invariant position == 1 + CarsAhead(m, track.checkpoints, lap, player.State(), rest[..i])
    {
      var aiProgress := CarProgress(m, track, lap, ais[i]);
      AheadStep(m, track.checkpoints, lap, player.State(), rest, i);
      if aiProgress > playerProgress {
        position := position + 1;
      }
      i := i + 1;
    }
    assert rest[..|ais|] == rest;
  }

  /** The AI-car loop of Game.start. */
  method StartGrid(m: MathLib, t: Track, player: Car) returns (cars: seq<Car>)
    requires player.isPlayer
    ensures Roles(player, cars)
    ensures forall i :: 0 <= i < |cars| ==> fresh(cars[i])
    ensures States(cars) == Grid(m, t.startX, t.startY, t.startAngle, |t.path|)
  {
    cars := [];
    var i := 0;
    while i < NumAICars
      invariant 0 <= i <= NumAICars && |cars| == i
      invariant Roles(player, cars)
      invariant forall j :: 0 <= j < i ==> fresh(cars[j])
      invariant forall j :: 0 <= j < i ==> cars[j].State() == GridCar(m, t.startX, t.startY, t.startAngle, |t.path|, j)
    {
      var offsetAngle := (i + 1) as real * (PI * 2.0 / (NumAICars + 1) as real);
      var aiCar := new Car(t.startX + m.cos(offsetAngle) * GridRadius, t.startY + m.sin(offsetAngle) * GridRadius, false);
      aiCar.angle := t.startAngle;
      aiCar.aiPathIndex := StartIndex(|t.path|, i);
      cars := cars + [aiCar];
      i := i + 1;
    }
    assert States(cars) == Grid(m, t.startX, t.startY, t.startAngle, |t.path|);
  }

  /** The cars of Game.start: the player's car on the start facing along
      the track, and the AI cars of the starting grid. */
  method NewCars(m: MathLib, t: Track) returns (player: Car, cars: seq<Car>)
    ensures fresh(player) && forall i :: 0 <= i < |cars| ==> fresh(cars[i])
    ensures Roles(player, cars) && SettledCars(player.State(), States(cars))
    ensures player.State() == CarState(t.startX, t.startY, t.startAngle, 0.0, BaseMaxSpeed(true), None, 0.0, 0.0, 0.0, 0)
    ensures States(cars) == Grid(m, t.startX, t.startY, t.startAngle, |t.path|)
  {
    player := new Car(t.startX, t.startY, true);
    player.angle := t.startAngle;
    cars := StartGrid(m, t, player);
  }

  /** The Game object. Its race fields are kept together as one RaceVars
      value, and the cars and the power-up field as the states of the
      objects game.js holds (RunCars, ApplyEffect and GetPlayerPosition run
      the same steps on Car objects). */
  class Game {
    var race: RaceVars
    var track: Track?
    var playerCar: CarState
    var aiCars: seq<CarState>
    var powerUps: Field

    /** A race has been set up: the track exists and has checkpoints, the
        cars are settled and the field holds at most its bound. */
    ghost predicate Ready()
      reads this
    {
      && track != null && |track.checkpoints| > 0
      && SettledCars(playerCar, aiCars)
      && |powerUps.items| <= MaxPowerUps
    }

    /** Before the first race nothing is held; after it a race is set up.
        The lap count stays in range either way. */
    ghost predicate Valid()
      reads this
    {
      && (Ready() || (race.state == Menu && race.playerPowerUp == None))
      && 1 <= race.lap <= MaxLaps
    }

    /** The race fields, the cars and the power-up field. */
    function Snapshot(): World
      reads this
    {
      World(race, playerCar, aiCars, powerUps)
    }

    /** `new Game(canvas)`: the menu, no race yet. */
    constructor (stored: Storage)
      ensures Valid() && track == null && aiCars == []
      ensures race == RaceVars(Menu, 0, 1, 0, false, 0.0, None, 0.0, 0.0, 0.0, stored)
    {
      race := RaceVars(Menu, 0, 1, 0, false, 0.0, None, 0.0, 0.0, 0.0, stored);
      track, aiCars, powerUps := null, [], Field([], 0.0);
    }

    /** Game.start: a new track, the player's car on the start facing along
        the track, three AI cars around it spread along the path, an empty
        power-up field and the race fields reset. */
    method Start(m: MathLib)
      modifies this
      ensures Valid() && Ready()
      ensures fresh(track) && Generated(m, track.path, track.checkpoints, track.startX, track.startY, track.startAngle)
      ensures playerCar == CarState(track.startX, track.startY, track.startAngle, 0.0, BaseMaxSpeed(true), None, 0.0, 0.0, 0.0, 0)
      ensures aiCars == Grid(m, track.startX, track.startY, track.startAngle, |track.path|)
      ensures powerUps == Field([], 0.0)
      ensures race == RaceVars(Playing, 0, 1, 0, false, 0.0, None, 0.0, old(race.cameraX), old(race.cameraY), old(race.storage))
    {
      var t := new Track(m);
      var player, cars := NewCars(m, t);
      var manager := new PowerUpManager(t);
      track, playerCar, aiCars, powerUps := t, player.State(), States(cars), manager.State();
      race := race.(state := Playing, score := 0, lap := 1, currentCheckpoint := 0, hasPassedStartLine := false,
                    raceTime := 0.0, playerPowerUp := None, playerPowerUpTimer := 0.0);
    }

    /** The Escape key: pause a running race, or resume a paused one. */
    method PressEscape()
      modifies this`race
      ensures old(race.state) == Playing ==> race == old(race).(state := Paused)
      ensures old(race.state) == Paused ==> race == old(race).(state := Playing)
      ensures old(race.state) != Playing && old(race.state) != Paused ==> race == old(race)
    {
      if race.state == Playing {
        race := race.(state := Paused);
      } else if race.state == Paused {
        race := race.(state := Playing);
      }
    }

    /** The space key: uses the held power-up, but only during a race. */
    method PressSpace()
      requires Valid()
      modifies this`race, this`playerCar, this`aiCars
      ensures Valid()
      ensures old(race.state) != Playing ==> Snapshot() == old(Snapshot())
      ensures old(race.state) == Playing ==> Snapshot() == UseHeld(old(Snapshot()))
    {
      if race.state == Playing {
        UsePowerUp();
      }
    }

    /** Game.usePowerUp. */
    method UsePowerUp()
      requires Valid()
      modifies this`race, this`playerCar, this`aiCars
      ensures Valid()
      ensures Snapshot() == UseHeld(old(Snapshot()))
    {
      if race.playerPowerUp.Some? && race.playerPowerUpTimer > 0.0 {
        var r := UseEffect(playerCar, aiCars, race.playerPowerUp.value);
        playerCar, aiCars := r.0, r.1;
        race := race.(playerPowerUp := None, playerPowerUpTimer := 0.0);
      }
    }

    /** Game.update: one frame of `deltaTime` milliseconds, with the race
        clock reading `now` seconds, the held keys, the spawn draws and the
        date stamp a finish would record. Nothing happens unless the race
        is on; otherwise the world moves on as Tick says. */
    method Update(m: MathLib, deltaTime: real, now: real, keys: set<string>, d: SpawnDraws, date: string)
      requires Valid() && DrawsInRange(d)
      modifies this`race, this`playerCar, this`aiCars, this`powerUps
      ensures Valid()
      ensures old(race.state) != Playing ==> Snapshot() == old(Snapshot())
      ensures old(race.state) == Playing ==>
                Snapshot() == Tick(m, old(track).path, old(track).checkpoints, old(Snapshot()), deltaTime, now, keys, d, date)
    {
      if race.state == Playing {
        Play(m, deltaTime, now, keys, d, date, track.path, track.checkpoints, Snapshot());
      }
    }

    /** One frame of a running race. */
    method Play(m: MathLib, deltaTime: real, now: real, keys: set<string>, d: SpawnDraws, date: string,
                path: seq<Point>, cps: seq<Checkpoint>, ghost w0: World)
      requires Ready() && race.state == Playing && 1 <= race.lap <= MaxLaps && DrawsInRange(d)
      requires track.path == path && track.checkpoints == cps && Snapshot() == w0
      modifies this`race, this`playerCar, this`aiCars, this`powerUps
      ensures Ready() && 1 <= race.lap <= MaxLaps
      ensures Snapshot() == Tick(m, path, cps, w0, deltaTime, now, keys, d, date)
    {
      RaceCars(m, deltaTime, now, keys, path, Snapshot());
      ghost var w1 := Driven(m, path, w0, deltaTime, now, keys);
      Collect(m, w1);
      ghost var w2 := Pickup(m, w1);
      AdvanceTimers(m, deltaTime, d, path, w2);
      ghost var w3 := Timers(m, path, w2, deltaTime, d);
      Standings(m, date, cps, w3);
    }

    /** The race clock and the car phases of Game.update: the race time,
        then every car's own update, boundary check and contacts. */
    method RaceCars(m: MathLib, deltaTime: real, now: real, keys: set<string>, path: seq<Point>, w: World)
      requires SettledCars(w.player, w.ais) && Snapshot() == w
      modifies this`race, this`playerCar, this`aiCars
      ensures Snapshot() == Driven(m, path, w, deltaTime, now, keys)
    {
      var c := CarPhase(m, path, w.player, w.ais, Seconds(deltaTime), keys);
      race, playerCar, aiCars := w.race.(raceTime := now), c.0, c.1;
    }

    /** The pickup step of Game.update: PowerUpManager.checkCollection on
        the player's car, and a collected type held and applied. */
    method Collect(m: MathLib, ghost w: World)
      requires Ready() && Snapshot() == w
      modifies this`race, this`playerCar, this`powerUps
      ensures Ready()
      ensures Snapshot() == Pickup(m, w)
    {
      var collected := PickedKind(m, powerUps.items, playerCar);
      powerUps := powerUps.(items := AfterCollection(m, powerUps.items, playerCar));
      if collected.Some? {
        race := race.(playerPowerUp := collected, playerPowerUpTimer := HeldDuration, score := race.score + PickupPoints);
        playerCar := playerCar.(powerUpActive := collected, powerUpTimer := HeldDuration);
      }
    }

    /** The held power-up's countdown and the power-up field's update in
        Game.update. */
    method AdvanceTimers(m: MathLib, deltaTime: real, d: SpawnDraws, path: seq<Point>, ghost w: World)
      requires Ready() && Snapshot() == w && DrawsInRange(d)
      modifies this`race, this`powerUps
      ensures Ready()
      ensures Snapshot() == Timers(m, path, w, deltaTime, d)
    {
      CountDownHeld(Seconds(deltaTime));
      powerUps := ManagerStep(m, path, powerUps, deltaTime, d);
    }

    /** The held power-up's countdown in Game.update. */
    method CountDownHeld(dt: real)
      modifies this`race
      ensures race == HeldCountdown(old(race), dt)
    {
      if race.playerPowerUpTimer > 0.0 {
        race := race.(playerPowerUpTimer := race.playerPowerUpTimer - dt);
        if race.playerPowerUpTimer <= 0.0 {
          race := race.(playerPowerUp := None);
        }
      }
    }

    /** The end of Game.update: checkpoint and lap, score, camera. */
    method Standings(m: MathLib, date: string, cps: seq<Checkpoint>, ghost w: World)
      requires Ready() && Snapshot() == w && |cps| > 0 && 1 <= race.lap <= MaxLaps
      modifies this`race
      ensures Ready() && 1 <= race.lap <= MaxLaps
      ensures Snapshot() == w.(race := Standing(m, cps, w.race, w.player, w.ais, date))
    {
      CheckLap(m, date, cps);
      UpdateScore(m, cps);
      race := race.(cameraX := playerCar.x, cameraY := playerCar.y);
    }

    /** The checkpoint and lap step of Game.update. */
    method CheckLap(m: MathLib, date: string, cps: seq<Checkpoint>)
      requires |cps| > 0
      modifies this`race
      ensures race == LapStep(m, cps, old(race), old(playerCar), old(aiCars), date)
    {
      var newCheckpoint := Advance(m, cps, playerCar.x, playerCar.y, race.currentCheckpoint);
      if newCheckpoint != race.currentCheckpoint {
        if newCheckpoint == 0 {
          race := race.(hasPassedStartLine := true);
        }
        race := race.(currentCheckpoint := newCheckpoint);
        if race.currentCheckpoint == 0 && race.hasPassedStartLine {
          if race.lap < MaxLaps {
            race := race.(lap := race.lap + 1, score := race.score + LapPoints);
          } else if race.lap == MaxLaps {
            FinishRace(m, date, cps);
          }
        }
      }
    }

    /** Game.updateScore. */
    method UpdateScore(m: MathLib, cps: seq<Checkpoint>)
      requires |cps| > 0
      modifies this`race
      ensures race == ScoreTick(m, cps, old(race), old(playerCar), old(aiCars))
    {
      var score := race.score + SpeedPoints(playerCar.speed);
      var playerPosition := Rank(m, cps, race.lap, playerCar, aiCars);
      var positionBonus := (|aiCars| + 2 - playerPosition) * 10;
      race := race.(score := score + positionBonus);
    }

    /** Game.finishRace. */
    method FinishRace(m: MathLib, date: string, cps: seq<Checkpoint>)
      requires |cps| > 0
      modifies this`race
      ensures race == Finished(old(race), Rank(m, cps, old(race).lap, old(playerCar), old(aiCars)), |old(aiCars)|, date)
    {
      var position := Rank(m, cps, race.lap, playerCar, aiCars);
      var score := FinalScore(race, position, |aiCars|);
      var saved := SaveHighScore(race.storage, score, race.raceTime, position, date);
      race := race.(state := GameOver, score := score, storage := Stored(saved));
    }
  }
}
