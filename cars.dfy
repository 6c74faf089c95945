/** The car of the racing game (js/car.js): its per-tick kinematic step under
    player or AI control, its power-up and collision timers, its oriented
    corners, the axis-aligned overlap test and the collision response. */
module Cars {
  import opened Utils

  /** The four kinds of pickup ('speedBoost', 'shield', 'nitro',
      'slowMotion'). */
  datatype PowerUpType = SpeedBoost | Shield | Nitro | SlowMotion

  // The tuning fields every car is built with and never changes.
  const Acceleration: real := 150.0
  const Deceleration: real := 100.0
  const TurnSpeed: real := 0.05
  const Friction: real := 0.95
  const Width: real := 20.0
  const Height: real := 40.0

  /** The distance at which an AI car takes its waypoint as reached. */
  const WaypointReach: real := 50.0

  /** The speed cap without a speed boost: 200 for the player, 180 for AI. */
  function BaseMaxSpeed(isPlayer: bool): (r: real)
    ensures 0.0 < r
  {
    if isPlayer then 200.0 else 180.0
  }

  /** The keys that accelerate, brake, turn left and turn right. */
  predicate Accelerating(keys: set<string>)
  {
    "ArrowUp" in keys || "w" in keys || "W" in keys
  }

  predicate Braking(keys: set<string>)
  {
    "ArrowDown" in keys || "s" in keys || "S" in keys
  }

  predicate TurningLeft(keys: set<string>)
  {
    "ArrowLeft" in keys || "a" in keys || "A" in keys
  }

  predicate TurningRight(keys: set<string>)
  {
    "ArrowRight" in keys || "d" in keys || "D" in keys
  }

  /** The fields of a car that change while it races. */
  datatype CarState = CarState(
    x: real,
    y: real,
    angle: real,
    speed: real,
    maxSpeed: real,
    powerUpActive: Option<PowerUpType>,
    powerUpTimer: real,
    collisionCooldown: real,
    targetAngle: real,
    aiPathIndex: nat)

  /** What holds of a car between ticks: its cap is the base cap, or the
      boosted one, and its speed lies between 0 and the cap. */
  predicate Settled(s: CarState, isPlayer: bool)
  {
    && (s.maxSpeed == BaseMaxSpeed(isPlayer) || s.maxSpeed == BaseMaxSpeed(isPlayer) * 1.5)
    && 0.0 <= s.speed <= s.maxSpeed
  }

  /** The first phase of Car.update: the held power-up runs down and expires
      once its timer reaches 0; a positive collision cooldown runs down,
      with no floor at 0. */
  function TickTimers(s: CarState, dt: real): (r: CarState)
    ensures s.powerUpActive == None ==> r.powerUpActive == None && r.powerUpTimer == s.powerUpTimer
    ensures s.powerUpActive != None ==> r.powerUpTimer == s.powerUpTimer - dt
    ensures s.powerUpActive != None ==>
              r.powerUpActive == (if s.powerUpTimer - dt <= 0.0 then None else s.powerUpActive)
    ensures 0.0 < s.collisionCooldown ==> r.collisionCooldown == s.collisionCooldown - dt
    ensures s.collisionCooldown <= 0.0 ==> r.collisionCooldown == s.collisionCooldown
    ensures r.(powerUpActive := s.powerUpActive, powerUpTimer := s.powerUpTimer,
               collisionCooldown := s.collisionCooldown) == s
  {
    var s1 :=
      if s.powerUpActive != None then
        var t := s.powerUpTimer - dt;
        s.(powerUpTimer := t, powerUpActive := if t <= 0.0 then None else s.powerUpActive)
      else s;
    if 0.0 < s1.collisionCooldown then s1.(collisionCooldown := s1.collisionCooldown - dt) else s1
  }

  /** Car.updatePlayer: the held keys accelerate or brake by a rate times
      the step, and turn the car, in proportion to its speed, only when it
      moves faster than 10; the heading is then normalised. */
  function PlayerControl(s: CarState, dt: real, keys: set<string>): (r: CarState)
    requires 0.0 < s.maxSpeed
    ensures r.speed == s.speed + (if Accelerating(keys) then Mul(Acceleration, dt) else 0.0)
                               - (if Braking(keys) then Mul(Deceleration, dt) else 0.0)
    ensures 0.0 <= r.angle < TwoPi
    ensures r.angle == NormalizeAngle(s.angle + PlayerTurn(r.speed, s.maxSpeed, keys))
    ensures r.(speed := s.speed, angle := s.angle) == s
  {
    var s1 := if Accelerating(keys) then s.(speed := s.speed + Mul(Acceleration, dt)) else s;
    var s2 := if Braking(keys) then s1.(speed := s1.speed - Mul(Deceleration, dt)) else s1;
    var s3 := s2.(angle := s2.angle + PlayerTurn(s2.speed, s2.maxSpeed, keys));
    s3.(angle := NormalizeAngle(s3.angle))
  }

  /** PlayerControl taken one key group at a time, as Car.updatePlayer
      updates the car's fields. */
  lemma PlayerControlSteps(s0: CarState, s1: CarState, s2: CarState, s3: CarState, dt: real,
                           keys: set<string>)
    requires 0.0 < s0.maxSpeed
    requires s1 == if Accelerating(keys) then s0.(speed := s0.speed + Mul(Acceleration, dt)) else s0
    requires s2 == if Braking(keys) then s1.(speed := s1.speed - Mul(Deceleration, dt)) else s1
    requires s3 == s2.(angle := s2.angle + PlayerTurn(s2.speed, s2.maxSpeed, keys))
    ensures PlayerControl(s0, dt, keys) == s3.(angle := NormalizeAngle(s3.angle))
  {
  }

  function Abs(v: real): (r: real)
    ensures 0.0 <= r && (r == v || r == -v)
  {
    if v < 0.0 then -v else v
  }

  /** The heading change of one player tick: none at 10 or below; otherwise
      `turnSpeed * |speed| / maxSpeed` for each of left (negative) and right
      (positive) that is held. */
  function PlayerTurn(speed: real, maxSpeed: real, keys: set<string>): (turn: real)
    requires 0.0 < maxSpeed
    ensures Abs(speed) <= 10.0 ==> turn == 0.0
    ensures TurningLeft(keys) == TurningRight(keys) ==> turn == 0.0
    ensures 10.0 < Abs(speed) && TurningRight(keys) && !TurningLeft(keys) ==> 0.0 < turn
    ensures 10.0 < Abs(speed) && TurningLeft(keys) && !TurningRight(keys) ==> turn < 0.0
  {
    if Abs(speed) > 10.0 then
      var factor := Abs(speed) / maxSpeed;
      var step := Mul(TurnSpeed, factor);
      assert 0.0 < factor;
      MulPositive(TurnSpeed, factor);
      (if TurningLeft(keys) then -step else 0.0) + (if TurningRight(keys) then step else 0.0)
    else
      0.0
  }

  /** The first loop of the angle-difference wrap in Car.updateAI: take
      whole turns off while above π. */
  function WrapDown(d: real): (r: real)
    ensures r <= PI
    ensures d <= PI ==> r == d
    ensures PI < d ==> -PI < r
    ensures SameDirection(r, d)
    decreases if PI < d then ((d - PI) / TwoPi).Floor + 1 else 0
  {
    if PI < d then
      var r := WrapDown(d - TwoPi);
      TurnBack(r, d);
      r
    else
      d
  }

  /** The second loop: add whole turns while below -π. */
  function WrapUp(d: real): (r: real)
    requires d <= PI
    ensures -PI <= r <= PI
    ensures -PI <= d ==> r == d
    ensures SameDirection(r, d)
    decreases if d < -PI then ((-PI - d) / TwoPi).Floor + 1 else 0
  {
    if d < -PI then
      var r := WrapUp(d + TwoPi);
      TurnForward(r, d);
      r
    else
      d
  }

  /** The angle difference of Car.updateAI, brought into [-π, π] without
      changing the direction it denotes. */
  function AngleDifference(d: real): (r: real)
    ensures -PI <= r <= PI
    ensures SameDirection(r, d)
    ensures -PI <= d <= PI ==> r == d
  {
    WrapUp(WrapDown(d))
  }

  /** The heading change of one AI tick toward a target bearing: exactly
      `turnSpeed * 0.8` in the direction of the wrapped difference, and only
      when that difference exceeds 0.1 in size. */
  function AiTurn(diff: real): (turn: real)
    ensures Abs(diff) <= 0.1 ==> turn == 0.0
    ensures 0.1 < Abs(diff) ==> Abs(turn) == TurnSpeed * 0.8
    ensures 0.1 < diff ==> 0.0 < turn
    ensures diff < -0.1 ==> turn < 0.0
  {
    if Abs(diff) > 0.1 then
      if diff > 0.0 then TurnSpeed * 0.8 else -(TurnSpeed * 0.8)
    else
      0.0
  }

  /** Car.updateAI: steer toward the path point at `aiPathIndex`, accelerate
      while farther than 50 from it and otherwise move on to the next point;
      without a path, only accelerate. */
  function AiControl(m: MathLib, s: CarState, dt: real, path: seq<Point>): (r: CarState)
    ensures |path| == 0 ==> r == s.(speed := s.speed + Mul(Acceleration, dt) * 0.7)
    ensures |path| > 0 ==>
              var target := path[s.aiPathIndex % |path|];
              var far := Distance(m, s.x, s.y, target.x, target.y) > WaypointReach;
              && r.targetAngle == m.atan2(target.y - s.y, target.x - s.x)
              && r.angle == NormalizeAngle(s.angle + AiTurn(AngleDifference(r.targetAngle - s.angle)))
              && r.speed == (if far then s.speed + Mul(Acceleration, dt) * 0.8 else s.speed)
              && r.aiPathIndex == (if far then s.aiPathIndex else (s.aiPathIndex + 1) % |path|)
              && r.aiPathIndex < |path| + (if far then s.aiPathIndex else 0)
              && r.(targetAngle := s.targetAngle, angle := s.angle, speed := s.speed,
                    aiPathIndex := s.aiPathIndex) == s
  {
    if |path| > 0 then
      var target := path[s.aiPathIndex % |path|];
      var dx := target.x - s.x;
      var dy := target.y - s.y;
      var distance := Distance(m, s.x, s.y, target.x, target.y);
      var s1 := s.(targetAngle := m.atan2(dy, dx));
      var diff := AngleDifference(s1.targetAngle - s1.angle);
      var s2 := s1.(angle := s1.angle + AiTurn(diff));
      var s3 :=
        if distance > WaypointReach then s2.(speed := s2.speed + Mul(Acceleration, dt) * 0.8)
        else s2.(aiPathIndex := (s2.aiPathIndex + 1) % |path|);
      s3.(angle := NormalizeAngle(s3.angle))
    else
      s.(speed := s.speed + Mul(Acceleration, dt) * 0.7)
  }

  /** The last phase of Car.update: friction unless the player holds an
      accelerator, the speed cap set from the active power-up, slow motion,
      the move along the heading with the speed before clamping, and the
      clamp of the speed to [0, cap]. */
  function Coast(m: MathLib, s: CarState, isPlayer: bool, dt: real, keys: set<string>): (r: CarState)
    ensures 0.0 <= r.speed <= r.maxSpeed
    ensures r.maxSpeed == (if s.powerUpActive == Some(SpeedBoost) then BaseMaxSpeed(isPlayer) * 1.5
                           else BaseMaxSpeed(isPlayer))
    ensures r.(x := s.x, y := s.y, speed := s.speed, maxSpeed := s.maxSpeed) == s
  {
    var s1 :=
      if !isPlayer || !Accelerating(keys) then s.(speed := Mul(s.speed, m.pow(Friction, dt * 60.0)))
      else s;
    Moved(m, Slowed(Capped(s1, isPlayer)), dt)
  }

  /** The speed cap from the active power-up. */
  function Capped(s: CarState, isPlayer: bool): (r: CarState)
  {
    if s.powerUpActive == Some(SpeedBoost) then s.(maxSpeed := BaseMaxSpeed(isPlayer) * 1.5)
    else s.(maxSpeed := BaseMaxSpeed(isPlayer))
  }

  /** Slow motion takes 30% off the speed. */
  function Slowed(s: CarState): (r: CarState)
  {
    if s.powerUpActive == Some(SlowMotion) then s.(speed := s.speed * 0.7) else s
  }

  /** The move along the heading with the unclamped speed, then the clamp. */
  function Moved(m: MathLib, s: CarState, dt: real): (r: CarState)
    ensures 0.0 <= s.maxSpeed ==> 0.0 <= r.speed <= r.maxSpeed
  {
    var s1 := s.(x := s.x + Mul(Mul(m.cos(s.angle), s.speed), dt),
                 y := s.y + Mul(Mul(m.sin(s.angle), s.speed), dt));
    s1.(speed := Clamp(s1.speed, 0.0, s1.maxSpeed))
  }

  /** Car.update: one tick of `dt` seconds. */
  function Step(m: MathLib, s: CarState, isPlayer: bool, dt: real, keys: set<string>,
                path: seq<Point>): (r: CarState)
    requires Settled(s, isPlayer)
    ensures Settled(r, isPlayer)
    ensures r.powerUpActive == TickTimers(s, dt).powerUpActive
    ensures r.maxSpeed == BaseMaxSpeed(isPlayer) * 1.5 <==> r.powerUpActive == Some(SpeedBoost)
    ensures r.powerUpTimer == TickTimers(s, dt).powerUpTimer
    ensures r.collisionCooldown == TickTimers(s, dt).collisionCooldown
  {
    var t := TickTimers(s, dt);
    var c := if isPlayer then PlayerControl(t, dt, keys) else AiControl(m, t, dt, path);
    Coast(m, c, isPlayer, dt, keys)
  }

  /** A car. The tuning values of js/car.js are the module constants above;
      `isPlayer` is fixed when the car is built. */
  class Car {
    var x: real
    var y: real
    var angle: real
    var speed: real
    var maxSpeed: real
    var powerUpActive: Option<PowerUpType>
    var powerUpTimer: real
    var collisionCooldown: real
    var targetAngle: real
    var aiPathIndex: nat
    const isPlayer: bool

    function State(): CarState
      reads this
    {
      CarState(x, y, angle, speed, maxSpeed, powerUpActive, powerUpTimer, collisionCooldown,
               targetAngle, aiPathIndex)
    }

    ghost predicate Valid()
      reads this
    {
      Settled(State(), isPlayer)
    }

    /** `new Car(x, y, isPlayer)`: at rest, heading 0, no power-up. */
    constructor (x0: real, y0: real, player: bool)
      ensures Valid()
      ensures State() == CarState(x0, y0, 0.0, 0.0, BaseMaxSpeed(player), None, 0.0, 0.0, 0.0, 0)
      ensures isPlayer == player
    {
      x, y := x0, y0;
      angle, speed := 0.0, 0.0;
      maxSpeed := BaseMaxSpeed(player);
      powerUpActive, powerUpTimer := None, 0.0;
      collisionCooldown := 0.0;
      targetAngle, aiPathIndex := 0.0, 0;
      isPlayer := player;
    }

    /** Car.update, with the frame time in milliseconds, the held keys and the
        track's path. */
    method Update(m: MathLib, deltaTime: real, keys: set<string>, path: seq<Point>)
      requires Valid()
      modifies this
      ensures Valid()
      ensures State() == Step(m, old(State()), isPlayer, Seconds(deltaTime), keys, path)
    {
      var dt := Seconds(deltaTime);
      RunTimers(dt);
      if isPlayer {
        UpdatePlayer(dt, keys);
      } else {
        UpdateAI(m, dt, path);
      }
      Move(m, dt, keys);
    }

    /** The timer phase of Car.update. */
    method RunTimers(dt: real)
      modifies this
      ensures State() == TickTimers(old(State()), dt)
    {
      if powerUpActive != None {
        powerUpTimer := powerUpTimer - dt;
        if powerUpTimer <= 0.0 {
          powerUpActive := None;
        }
      }
      if collisionCooldown > 0.0 {
        collisionCooldown := collisionCooldown - dt;
      }
    }

    /** The friction, speed-cap, slow-motion, move and clamp phase of
        Car.update. */
    method Move(m: MathLib, dt: real, keys: set<string>)
      modifies this
      ensures State() == Coast(m, old(State()), isPlayer, dt, keys)
    {
      ghost var s1 := State();
      if !isPlayer || !Accelerating(keys) {
        speed := Mul(speed, m.pow(Friction, dt * 60.0));
      }
      ghost var s2 := State();
      if powerUpActive == Some(SpeedBoost) {
        maxSpeed := BaseMaxSpeed(isPlayer) * 1.5;
      } else {
        maxSpeed := BaseMaxSpeed(isPlayer);
      }
      if powerUpActive == Some(SlowMotion) {
        speed := speed * 0.7;
      }
      ghost var s3 := State();
      assert s3 == Slowed(Capped(s2, isPlayer));
      x := x + Mul(Mul(m.cos(angle), speed), dt);
      y := y + Mul(Mul(m.sin(angle), speed), dt);
      ghost var s4 := State();
      assert s4 == s3.(x := s3.x + Mul(Mul(m.cos(s3.angle), s3.speed), dt),
                       y := s3.y + Mul(Mul(m.sin(s3.angle), s3.speed), dt));
      speed := Clamp(speed, 0.0, maxSpeed);
      assert State() == s4.(speed := Clamp(s4.speed, 0.0, s4.maxSpeed));
      assert State() == Moved(m, s3, dt);
      assert Coast(m, s1, isPlayer, dt, keys) == Moved(m, Slowed(Capped(s2, isPlayer)), dt);
    }

    /** Car.updatePlayer. */
    method UpdatePlayer(dt: real, keys: set<string>)
      requires 0.0 < maxSpeed
      modifies this
      ensures State() == PlayerControl(old(State()), dt, keys)
    {
      ghost var s0 := State();
      if Accelerating(keys) {
        speed := speed + Mul(Acceleration, dt);
      }
      ghost var s1 := State();
      assert s1 == if Accelerating(keys) then s0.(speed := s0.speed + Mul(Acceleration, dt)) else s0;
      if Braking(keys) {
        speed := speed - Mul(Deceleration, dt);
      }
      ghost var s2 := State();
      assert s2 == if Braking(keys) then s1.(speed := s1.speed - Mul(Deceleration, dt)) else s1;
      if Abs(speed) > 10.0 {
        var turnFactor := Abs(speed) / maxSpeed;
        if TurningLeft(keys) {
          angle := angle - Mul(TurnSpeed, turnFactor);
        }
        if TurningRight(keys) {
          angle := angle + Mul(TurnSpeed, turnFactor);
        }
      }
      ghost var s3 := State();
      assert s3 == s2.(angle := s2.angle + PlayerTurn(s2.speed, s2.maxSpeed, keys));
      angle := NormalizeAngle(angle);
      assert State() == s3.(angle := NormalizeAngle(s3.angle));
      PlayerControlSteps(s0, s1, s2, s3, dt, keys);
    }

    /** Car.updateAI, following the given path. */
    method UpdateAI(m: MathLib, dt: real, path: seq<Point>)
      modifies this
      ensures State() == AiControl(m, old(State()), dt, path)
    {
      ghost var s0 := State();
      if |path| > 0 {
        var targetIndex := aiPathIndex % |path|;
        var target := path[targetIndex];
        var dx := target.x - x;
        var dy := target.y - y;
        var distance := Distance(m, x, y, target.x, target.y);
        targetAngle := m.atan2(dy, dx);
        ghost var s1 := State();
        assert s1 == s0.(targetAngle := m.atan2(dy, dx));
        var angleDiff := AngleDifference(targetAngle - angle);
        angle := angle + AiTurn(angleDiff);
        ghost var s2 := State();
        assert s2 == s1.(angle := s1.angle + AiTurn(angleDiff));
        if distance > WaypointReach {
          speed := speed + Mul(Acceleration, dt) * 0.8;
        } else {
          aiPathIndex := (aiPathIndex + 1) % |path|;
        }
        ghost var s3 := State();
        assert s3 == if distance > WaypointReach then s2.(speed := s2.speed + Mul(Acceleration, dt) * 0.8)
                     else s2.(aiPathIndex := (s2.aiPathIndex + 1) % |path|);
        angle := NormalizeAngle(angle);
        assert State() == s3.(angle := NormalizeAngle(s3.angle));
      } else {
        speed := speed + Mul(Acceleration, dt) * 0.7;
      }
    }

    /** Car.applyPowerUp: the new power-up and its duration replace whatever
        was active; nothing stacks. */
    method ApplyPowerUp(kind: PowerUpType, duration: real)
      modifies this
      ensures State() == old(State()).(powerUpActive := Some(kind), powerUpTimer := duration)
    {
      powerUpActive := Some(kind);
      powerUpTimer := duration;
    }

    /** Car.getCorners, with the host's cos and sin. */
    function GetCorners(m: MathLib): (corners: seq<Point>)
      reads this
      ensures |corners| == 4
      ensures corners == Corners(m, State())
    {
      Corners(m, State())
    }

    /** Car.checkCollision: the axis-aligned boxes of the two cars' corners
        overlap, edges included. */
    function CheckCollision(m: MathLib, other: Car): (hit: bool)
      reads this, other
      ensures hit == BoxesOverlap(BoundingBox(Corners(m, State())), BoundingBox(Corners(m, other.State())))
    {
      BoxesOverlap(BoundingBox(GetCorners(m)), BoundingBox(other.GetCorners(m)))
    }

    /** Car.handleCollision: nothing while either car cools down; otherwise
        the bounce of the two cars (see `Bounce`), and both cooldowns 0.5. */
    method HandleCollision(m: MathLib, other: Car)
      requires this != other
      modifies this, other
      ensures (State(), other.State()) == Bounce(m, old(State()), old(other.State()))
    {
      if collisionCooldown > 0.0 || other.collisionCooldown > 0.0 {
        return;
      }
      ghost var a0, b0 := State(), other.State();
      var dx := other.x - x;
      var dy := other.y - y;
      var distance := Distance(m, x, y, other.x, other.y);
      assert dx == b0.x - a0.x && dy == b0.y - a0.y;
      assert distance == Distance(m, a0.x, a0.y, b0.x, b0.y);
      if distance > 0.0 {
        var angle := m.atan2(dy, dx);
        var force := 50.0;
        assert angle == m.atan2(b0.y - a0.y, b0.x - a0.x);
        speed := speed * 0.5;
        other.speed := other.speed * 0.5;
        var pushX := m.cos(angle) * force * 0.1;
        var pushY := m.sin(angle) * force * 0.1;
        x := x - pushX;
        y := y - pushY;
        other.x := other.x + pushX;
        other.y := other.y + pushY;
        assert State() == a0.(speed := a0.speed * 0.5, x := a0.x - pushX, y := a0.y - pushY);
        assert other.State() == b0.(speed := b0.speed * 0.5, x := b0.x + pushX, y := b0.y + pushY);
        PushedApart(m, a0, b0);
      } else {
        assert (State(), other.State()) == Pushed(m, a0, b0);
      }
      ghost var a1, b1 := State(), other.State();
      collisionCooldown := 0.5;
      other.collisionCooldown := 0.5;
      assert State() == a1.(collisionCooldown := 0.5);
      assert other.State() == b1.(collisionCooldown := 0.5);
    }
  }

  /** The four corners of a car of the fixed size, turned by its heading:
      front-right, front-left, back-left, back-right in its own frame. */
  function Corners(m: MathLib, s: CarState): (corners: seq<Point>)
    ensures |corners| == 4
    ensures corners[0].x + corners[1].x + corners[2].x + corners[3].x == 4.0 * s.x
    ensures corners[0].y + corners[1].y + corners[2].y + corners[3].y == 4.0 * s.y
  {
    var c := m.cos(s.angle);
    var sn := m.sin(s.angle);
    var w2 := Width / 2.0;
    var h2 := Height / 2.0;
    [ Point(s.x + c * h2 - sn * w2, s.y + sn * h2 + c * w2),
      Point(s.x + c * h2 + sn * w2, s.y + sn * h2 - c * w2),
      Point(s.x - c * h2 + sn * w2, s.y - sn * h2 - c * w2),
      Point(s.x - c * h2 - sn * w2, s.y - sn * h2 + c * w2) ]
  }

  /** An axis-aligned box: its least and greatest x and y. */
  datatype Box = Box(minX: real, maxX: real, minY: real, maxY: real)

  /** The x coordinates of a list of points, `points.map(c => c.x)`. */
  function Xs(ps: seq<Point>): (r: seq<real>)
    ensures |r| == |ps|
    ensures forall i :: 0 <= i < |ps| ==> r[i] == ps[i].x
  {
    if |ps| == 0 then [] else Xs(ps[..|ps| - 1]) + [ps[|ps| - 1].x]
  }

  /** The y coordinates of a list of points, `points.map(c => c.y)`. */
  function Ys(ps: seq<Point>): (r: seq<real>)
    ensures |r| == |ps|
    ensures forall i :: 0 <= i < |ps| ==> r[i] == ps[i].y
  {
    if |ps| == 0 then [] else Ys(ps[..|ps| - 1]) + [ps[|ps| - 1].y]
  }

  /** `Math.min(...xs)` on a non-empty list. */
  function MinOf(xs: seq<real>): real
    requires |xs| > 0
  {
    if |xs| == 1 then xs[0] else Min(MinOf(xs[..|xs| - 1]), xs[|xs| - 1])
  }

  /** `Math.max(...xs)` on a non-empty list. */
  function MaxOf(xs: seq<real>): real
    requires |xs| > 0
  {
    if |xs| == 1 then xs[0] else Max(MaxOf(xs[..|xs| - 1]), xs[|xs| - 1])
  }

  /** The least element is one of the list and no greater than any. */
  lemma {:induction false} MinOfIsLeast(xs: seq<real>)
    requires |xs| > 0
    ensures forall i :: 0 <= i < |xs| ==> MinOf(xs) <= xs[i]
    ensures exists i :: 0 <= i < |xs| && xs[i] == MinOf(xs)
  {
    if |xs| > 1 {
      var init := xs[..|xs| - 1];
      MinOfIsLeast(init);
      var k :| 0 <= k < |init| && init[k] == MinOf(init);
      assert xs[k] == init[k];
      if MinOf(init) <= xs[|xs| - 1] {
        assert xs[k] == MinOf(xs);
      } else {
        assert xs[|xs| - 1] == MinOf(xs);
      }
      forall i | 0 <= i < |xs| - 1
        ensures MinOf(xs) <= xs[i]
      {
        assert xs[i] == init[i];
      }
    } else {
      assert xs[0] == MinOf(xs);
    }
  }

  /** The greatest element is one of the list and no less than any. */
  lemma {:induction false} MaxOfIsGreatest(xs: seq<real>)
    requires |xs| > 0
    ensures forall i :: 0 <= i < |xs| ==> xs[i] <= MaxOf(xs)
    ensures exists i :: 0 <= i < |xs| && xs[i] == MaxOf(xs)
  {
    if |xs| > 1 {
      var init := xs[..|xs| - 1];
      MaxOfIsGreatest(init);
      var k :| 0 <= k < |init| && init[k] == MaxOf(init);
      assert xs[k] == init[k];
      if MaxOf(init) >= xs[|xs| - 1] {
        assert xs[k] == MaxOf(xs);
      } else {
        assert xs[|xs| - 1] == MaxOf(xs);
      }
      forall i | 0 <= i < |xs| - 1
        ensures xs[i] <= MaxOf(xs)
      {
        assert xs[i] == init[i];
      }
    } else {
      assert xs[0] == MaxOf(xs);
    }
  }

  /** The box that `Math.min`/`Math.max` over the corner coordinates give. */
  function BoundingBox(corners: seq<Point>): (b: Box)
    requires |corners| == 4
  {
    Box(MinOf(Xs(corners)), MaxOf(Xs(corners)), MinOf(Ys(corners)), MaxOf(Ys(corners)))
  }

  /** The box holds every corner and each of its sides touches one. */
  lemma BoxBounds(corners: seq<Point>)
    requires |corners| == 4
    ensures var b := BoundingBox(corners);
            forall i :: 0 <= i < 4 ==> b.minX <= corners[i].x <= b.maxX && b.minY <= corners[i].y <= b.maxY
    ensures exists i :: 0 <= i < 4 && corners[i].x == BoundingBox(corners).minX
    ensures exists i :: 0 <= i < 4 && corners[i].x == BoundingBox(corners).maxX
    ensures exists i :: 0 <= i < 4 && corners[i].y == BoundingBox(corners).minY
    ensures exists i :: 0 <= i < 4 && corners[i].y == BoundingBox(corners).maxY
  {
    MinOfIsLeast(Xs(corners));
    MaxOfIsGreatest(Xs(corners));
    MinOfIsLeast(Ys(corners));
    MaxOfIsGreatest(Ys(corners));
  }

  /** Two boxes overlap unless one lies wholly to one side of the other. */
  predicate BoxesOverlap(a: Box, b: Box)
  {
    !(a.maxX < b.minX || a.minX > b.maxX || a.maxY < b.minY || a.minY > b.maxY)
  }

  /** Overlap is symmetric, so `a.checkCollision(b) == b.checkCollision(a)`. */
  lemma CollisionSymmetric(m: MathLib, a: Car, b: Car)
    ensures a.CheckCollision(m, b) == b.CheckCollision(m, a)
  {
  }

  /** The collision response of Car.handleCollision on the states of the two
      cars. */
  function Bounce(m: MathLib, a: CarState, b: CarState): (r: (CarState, CarState))
  {
    if 0.0 < a.collisionCooldown || 0.0 < b.collisionCooldown then
      (a, b)
    else
      var (a1, b1) := Pushed(m, a, b);
      (a1.(collisionCooldown := 0.5), b1.(collisionCooldown := 0.5))
  }

  /** The push of two cars whose centres are apart, spelt out. */
  lemma PushedApart(m: MathLib, a: CarState, b: CarState)
    requires Distance(m, a.x, a.y, b.x, b.y) > 0.0
    ensures var angle := m.atan2(b.y - a.y, b.x - a.x);
            var pushX := m.cos(angle) * 50.0 * 0.1;
            var pushY := m.sin(angle) * 50.0 * 0.1;
            Pushed(m, a, b)
            == (a.(speed := a.speed * 0.5, x := a.x - pushX, y := a.y - pushY),
                b.(speed := b.speed * 0.5, x := b.x + pushX, y := b.y + pushY))
  {
  }

  /** The push of a bounce: when the centres are apart, both cars slow to
      half speed and move 5 along the line between them, away from each
      other; on the same centre, nothing. */
  function Pushed(m: MathLib, a: CarState, b: CarState): (r: (CarState, CarState))
  {
    if Distance(m, a.x, a.y, b.x, b.y) > 0.0 then
      var angle := m.atan2(b.y - a.y, b.x - a.x);
      var pushX := m.cos(angle) * 50.0 * 0.1;
      var pushY := m.sin(angle) * 50.0 * 0.1;
      (a.(speed := a.speed * 0.5, x := a.x - pushX, y := a.y - pushY),
       b.(speed := b.speed * 0.5, x := b.x + pushX, y := b.y + pushY))
    else (a, b)
  }

  /** A bounce changes nothing while either car cools down; otherwise both
      cooldowns become 0.5, and when the centres are apart both cars are
      slowed to half speed, else their speeds and places are kept. The two
      cars move by equal and opposite amounts, and nothing else changes. */
  lemma BounceResponse(m: MathLib, a: CarState, b: CarState)
    ensures 0.0 < a.collisionCooldown || 0.0 < b.collisionCooldown ==> Bounce(m, a, b) == (a, b)
    ensures var r := Bounce(m, a, b);
            a.collisionCooldown <= 0.0 && b.collisionCooldown <= 0.0 ==>
              r.0.collisionCooldown == 0.5 && r.1.collisionCooldown == 0.5
    ensures var r := Bounce(m, a, b);
            r.0.x + r.1.x == a.x + b.x && r.0.y + r.1.y == a.y + b.y
            && r.0.x - a.x == b.x - r.1.x && r.0.y - a.y == b.y - r.1.y
    ensures var r := Bounce(m, a, b);
            a.collisionCooldown <= 0.0 && b.collisionCooldown <= 0.0 ==>
              if Distance(m, a.x, a.y, b.x, b.y) > 0.0 then
                r.0.speed == a.speed * 0.5 && r.1.speed == b.speed * 0.5
              else
                r.0.speed == a.speed && r.1.speed == b.speed && r.0.x == a.x && r.0.y == a.y
                && r.1.x == b.x && r.1.y == b.y
    ensures var r := Bounce(m, a, b);
            && r.0.(x := a.x, y := a.y, speed := a.speed, collisionCooldown := a.collisionCooldown) == a
            && r.1.(x := b.x, y := b.y, speed := b.speed, collisionCooldown := b.collisionCooldown) == b
  {
  }

  /** When the centres differ (and Math.sqrt is lawful), both cars are slowed
      to half speed and pushed apart by equal and opposite amounts. */
  lemma BounceApart(m: MathLib, a: CarState, b: CarState)
    requires Lawful(m)
    requires a.collisionCooldown <= 0.0 && b.collisionCooldown <= 0.0
    requires a.x != b.x || a.y != b.y
    ensures var r := Bounce(m, a, b);
            && r.0.speed == a.speed * 0.5 && r.1.speed == b.speed * 0.5
            && r.0.x - a.x == -(r.1.x - b.x) && r.0.y - a.y == -(r.1.y - b.y)
  {
  }
}
