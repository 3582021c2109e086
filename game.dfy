/** The duel itself: the two tanks, the global game state of game.js, and
    the steps that change it — a shell landing (the impact block of
    `gameLoop`, game.js:433-461), `takeDamage`, the fire button, the AI's
    turn, the AI toggle and `resetGame`.

    The random draws (`Math.random()`) of `updateWind`, `initializeTerrain`
    and `AITurn` are parameters; so are the square root (`hypot`) and the
    cosine and sine of the launch angle. */
module GameState {
  import opened Util
  import opened Terrain
  import opened Ballistics

  /** The radius `destroyTerrain` is called with on impact. */
  const BlastRadius: real := 40.0

  /** A tank nearer than this to the impact takes damage. */
  const DamageRadius: real := 70.0

  const FullHealth: real := 100.0

  /** `maxWindSpeed`. */
  const MaxWindSpeed: real := 5.0

  /** The damage a tank at `distance < 70` from the impact takes:
      `Math.max(0, 70 - distance)`. */
  function SplashDamage(distance: real): (d: real)
    requires distance < DamageRadius
    ensures 0.0 < d
    ensures 0.0 <= distance ==> d <= DamageRadius
    ensures d == DamageRadius - distance
  {
    MaxR(0.0, DamageRadius - distance)
  }

  /** The nearer the tank, the more damage it takes. */
  lemma SplashDamageDecreases(d1: real, d2: real)
    requires d1 <= d2 < DamageRadius
    ensures SplashDamage(d1) >= SplashDamage(d2)
  {
  }

  /** The distance from a tank, standing at `(tankX, canvasHeight -
      Tank.getTerrainHeight(tankX))`, to the impact point. */
  function TankDistance(t: seq<Sample>, tankX: real, px: real, py: real, canvasHeight: real,
                        hypot: (real, real) -> real): (d: real)
    requires |t| > 0
    ensures IsHypot(hypot) ==> 0.0 <= d
  {
    hypot(tankX - px, (canvasHeight - TankHeight(t, tankX)) - py)
  }

  /** What an impact takes from a tank's health: nothing beyond the damage
      radius, `SplashDamage` within it. */
  function HealthLoss(distance: real): (loss: real)
    ensures distance < DamageRadius ==> loss == DamageRadius - distance
    ensures distance >= DamageRadius ==> loss == 0.0
    ensures 0.0 < loss <==> distance < DamageRadius
    ensures 0.0 <= distance ==> 0.0 <= loss <= DamageRadius
  {
    if distance < DamageRadius then SplashDamage(distance) else 0.0
  }

  /** With a true square root the loss of a hit tank lies in (0, 70], and a
      tank is hit exactly when it is nearer than 70. */
  lemma HealthLossBounded(t: seq<Sample>, tankX: real, px: real, py: real, canvasHeight: real,
                          hypot: (real, real) -> real)
    requires |t| > 0 && IsHypot(hypot)
    ensures var loss := HealthLoss(TankDistance(t, tankX, px, py, canvasHeight, hypot));
      0.0 <= loss <= DamageRadius &&
      (0.0 < loss <==> TankDistance(t, tankX, px, py, canvasHeight, hypot) < DamageRadius)
  {
    var dx := tankX - px;
    var dy := (canvasHeight - TankHeight(t, tankX)) - py;
    assert 0.0 <= hypot(dx, dy);
  }

  /** `updateWind`: a uniform draw in [0, 1) scaled to [-5, 5). */
  function Wind(draw: real): (w: real)
    ensures 0.0 <= draw < 1.0 ==> -MaxWindSpeed <= w < MaxWindSpeed
    ensures draw == 0.5 ==> w == 0.0
  {
    draw * MaxWindSpeed * 2.0 - MaxWindSpeed
  }

  /** The angle `Tank.fire` launches at: the tank's own angle left of the
      centre, mirrored (`180 - angle`) right of it, so both tanks shoot
      towards each other. */
  function CannonAngle(tankX: real, angle: real, canvasWidth: real): (a: real)
    ensures a == angle || a == 180.0 - angle
    ensures a == angle <==> tankX < canvasWidth / 2.0 || angle == 90.0
    ensures 0.0 <= angle <= 180.0 ==> 0.0 <= a <= 180.0
  {
    if tankX < canvasWidth / 2.0 then angle else 180.0 - angle
  }

  /** Two tanks on opposite halves with the same setting fire mirror-image
      shots; a tank left of the centre fires at its own setting. */
  lemma CannonAnglesMirror(leftX: real, rightX: real, angle: real, canvasWidth: real)
    requires leftX < canvasWidth / 2.0 <= rightX
    ensures CannonAngle(leftX, angle, canvasWidth) == angle
    ensures CannonAngle(leftX, angle, canvasWidth) + CannonAngle(rightX, angle, canvasWidth) == 180.0
  {
  }

  // ---------------------------------------------------------------------
  // The AI's aim (AITurn, game.js:507-518)
  // ---------------------------------------------------------------------

  /** `Math.min(89, Math.max(1, 45 + heightDifference / distance * 45))`.
      At distance 0 the quotient is `±Infinity` (clamped to 89 or 1) or,
      with no height difference, `NaN`, which the clamps pass through:
      `None`. */
  function AIBaseAngle(heightDifference: real, distance: real): (angle: Option<real>)
    ensures angle.None? <==> distance == 0.0 && heightDifference == 0.0
    ensures angle.Some? ==> 1.0 <= angle.value <= 89.0
    ensures distance != 0.0 && -44.0 <= heightDifference / distance * 45.0 <= 44.0 ==>
      angle == Some(45.0 + heightDifference / distance * 45.0)
    ensures distance != 0.0 && heightDifference / distance * 45.0 > 44.0 ==> angle == Some(89.0)
    ensures distance != 0.0 && heightDifference / distance * 45.0 < -44.0 ==> angle == Some(1.0)
    ensures distance == 0.0 && heightDifference > 0.0 ==> angle == Some(89.0)
    ensures distance == 0.0 && heightDifference < 0.0 ==> angle == Some(1.0)
  {
    if distance == 0.0 then
      if heightDifference > 0.0 then Some(89.0)
      else if heightDifference < 0.0 then Some(1.0)
      else None
    else
      Some(Clamp(1.0, 89.0, 45.0 + heightDifference / distance * 45.0))
  }

  /** `Math.min(1000, Math.max(200, distance * 2))`. */
  function AIBasePower(distance: real): (power: real)
    ensures 200.0 <= power <= 1000.0
    ensures 100.0 <= distance <= 500.0 ==> power == 2.0 * distance
    ensures 2.0 * distance > 1000.0 ==> power == 1000.0
    ensures 2.0 * distance < 200.0 ==> power == 200.0
  {
    Clamp(200.0, 1000.0, distance * 2.0)
  }

  /** `value + (Math.random() - 0.5) * spread`. */
  function Jitter(value: real, draw: real, spread: real): (v: real)
    ensures 0.0 <= draw < 1.0 && 0.0 < spread ==> value - spread / 2.0 <= v < value + spread / 2.0
  {
    value + (draw - 0.5) * spread
  }

  /** The jitter is added after the clamps, so the AI's final angle lies in
      [-4, 94) and its power in [150, 1050): outside the ranges the clamps
      enforce. */
  lemma AIAimRange(heightDifference: real, distance: real, angleDraw: real, powerDraw: real)
    requires distance > 0.0
    requires 0.0 <= angleDraw < 1.0 && 0.0 <= powerDraw < 1.0
    ensures AIBaseAngle(heightDifference, distance).Some?
    ensures -4.0 <= Jitter(AIBaseAngle(heightDifference, distance).value, angleDraw, 10.0) < 94.0
    ensures 150.0 <= Jitter(AIBasePower(distance), powerDraw, 100.0) < 1050.0
  {
  }

  /** Draws that take the AI outside the clamped ranges: with the AI's
      ground 500 above the target's (`heightDifference` is the AI's ground
      height minus the target's) at distance 500, and both draws 0.9, it
      aims at angle 93 with power 1040. */
  lemma AIJitterLeavesRange()
    ensures AIBaseAngle(500.0, 500.0) == Some(89.0)
    ensures Jitter(AIBaseAngle(500.0, 500.0).value, 0.9, 10.0) == 93.0
    ensures Jitter(AIBasePower(500.0), 0.9, 100.0) == 1040.0
  {
  }

  // ---------------------------------------------------------------------
  // Tanks
  // ---------------------------------------------------------------------

  class Tank {
    const x: real
    const color: string
    var angle: real
    var power: real
    var health: real

    /** A tank at `x` with angle 45, power 500 and full health. */
    constructor(x: real, color: string)
      ensures this.x == x && this.color == color
      ensures angle == 45.0 && power == 500.0 && health == FullHealth
    {
      this.x := x;
      this.color := color;
      angle := 45.0;
      power := 500.0;
      health := FullHealth;
    }

    /** `Tank.fire`: a fresh shell 20 pixels above the ground under the
        tank, launched at the cannon angle with the tank's power. */
    method Fire(terrain: seq<Sample>, canvasWidth: real, canvasHeight: real) returns (p: Projectile)
      requires |terrain| > 0
      ensures fresh(p) && p.Valid()
      ensures p.x == x && p.y == canvasHeight - TankHeight(terrain, x) - 20.0
      ensures p.angle == CannonAngle(x, angle, canvasWidth)
      ensures p.velocity == power / 20.0 && p.gravity == 9.8
      ensures p.time == 0.0 && p.trail == []
    {
      var cannonAngle := CannonAngle(x, angle, canvasWidth);
      p := new Projectile(x, canvasHeight - TankHeight(terrain, x) - 20.0, cannonAngle, power);
    }
  }

  // ---------------------------------------------------------------------
  // The game
  // ---------------------------------------------------------------------

  /** Whether the shell at `(x, y)` has landed: below the interpolated
      ground, or off the canvas to the left or right. A NaN ground height
      compares false. */
  function IsImpact(t: seq<Sample>, x: real, y: real, canvasWidth: nat, canvasHeight: real): (landed: bool)
    requires |t| > 0 && Increasing(t)
    ensures x < 0.0 || x > canvasWidth as real ==> landed
    ensures landed && 0.0 <= x <= canvasWidth as real ==>
      InterpolatedHeight(t, x).Some? && y > canvasHeight - InterpolatedHeight(t, x).value
  {
    (match InterpolatedHeight(t, x)
     case None => false
     case Some(h) => y > canvasHeight - h)
    || x < 0.0 || x > canvasWidth as real
  }

  /** Off the canvas a shell has always landed; on it, the ground height is
      a number (the NaN case never hides a hit) and the shell has landed
      exactly when it is below that height. */
  lemma ImpactCases(t: seq<Sample>, x: real, y: real, canvasWidth: nat, canvasHeight: real)
    requires IsSampledTerrain(t) && |t| > 1
    ensures x < 0.0 || x > canvasWidth as real ==> IsImpact(t, x, y, canvasWidth, canvasHeight)
    ensures 0.0 <= x <= canvasWidth as real ==>
      InterpolatedHeight(t, x).Some? &&
      (IsImpact(t, x, y, canvasWidth, canvasHeight) <==> y > canvasHeight - InterpolatedHeight(t, x).value)
  {
    InterpolatedHeightDefined(t, x);
  }

  class Game {
    const canvasWidth: nat
    const canvasHeight: real
    const tank1: Tank
    const tank2: Tank
    var terrain: array<Sample>
    var rocks: seq<Rock>
    var windSpeed: real
    var gameOver: bool
    var winner: Tank?
    var isAIMode: bool
    var currentTank: Tank
    var projectile: Projectile?

    /** The shape of the state: two distinct tanks, the turn and the winner
        among them, a laid-out terrain, a well-formed shell. */
    ghost predicate Valid()
      reads this, terrain, projectile
    {
      canvasWidth > 0 &&
      tank1 != tank2 && tank1.x != tank2.x &&
      (currentTank == tank1 || currentTank == tank2) &&
      (winner == null || winner == tank1 || winner == tank2) &&
      IsSampledTerrain(terrain[..]) &&
      (projectile != null ==> projectile.Valid())
    }

    /** What the rules keep true between steps: the game is over exactly
        when there is a winner, and a finished game has no shell in flight. */
    ghost predicate Consistent()
      reads this, tank1, tank2
    {
      Settled() && (gameOver ==> projectile == null)
    }

    /** The rules on health and the winner: the game is over exactly when
        there is a winner, the winner's opponent has no health left, a
        running game has both tanks alive, and no tank has more than full
        health. */
    ghost predicate Settled()
      reads this, tank1, tank2
    {
      (gameOver <==> winner != null) &&
      (winner == tank1 ==> tank2.health <= 0.0) &&
      (winner == tank2 ==> tank1.health <= 0.0) &&
      (!gameOver ==> tank1.health > 0.0 && tank2.health > 0.0) &&
      tank1.health <= FullHealth && tank2.health <= FullHealth
    }

    function Opponent(t: Tank): Tank
    {
      if t == tank1 then tank2 else tank1
    }

    /** A shell just fired by `tank` over the current terrain. */
    ghost predicate IsShotOf(p: Projectile, tank: Tank)
      reads this, terrain, p, tank
    {
      terrain.Length > 0 && p.Valid() &&
      p.x == tank.x &&
      p.y == canvasHeight - TankHeight(terrain[..], tank.x) - 20.0 &&
      p.angle == CannonAngle(tank.x, tank.angle, canvasWidth as real) &&
      p.velocity == tank.power / 20.0 && p.gravity == 9.8 &&
      p.time == 0.0 && p.trail == []
    }

    /** The page load: both tanks at full health (red at x = 50, blue at
        x = 730), red to move, AI off, a fresh terrain and wind. */
    constructor(canvasWidth: nat, canvasHeight: real, heights: seq<real>,
                rockDraws: seq<(real, real)>, windDraw: real)
      requires canvasWidth > 0
      requires |heights| == SampleCount(canvasWidth) && |rockDraws| == RockCount
      ensures Valid() && Consistent()
      ensures fresh(tank1) && fresh(tank2) && fresh(terrain)
      ensures tank1.x == 50.0 && tank1.color == "#e74c3c"
      ensures tank2.x == 730.0 && tank2.color == "#3498db"
      ensures tank1.health == FullHealth && tank2.health == FullHealth
      ensures !gameOver && winner == null && !isAIMode
      ensures currentTank == tank1 && projectile == null
      ensures terrain[..] == LaidOutTerrain(heights)
      ensures rocks == PlacedRocks(canvasWidth, rockDraws)
      ensures windSpeed == Wind(windDraw)
    {
      this.canvasWidth := canvasWidth;
      this.canvasHeight := canvasHeight;
      var red := new Tank(50.0, "#e74c3c");
      var blue := new Tank(730.0, "#3498db");
      tank1 := red;
      tank2 := blue;
      gameOver := false;
      winner := null;
      isAIMode := false;
      currentTank := red;
      projectile := null;
      var laid := LaidOutTerrain(heights);
      terrain := new Sample[|laid|](i requires 0 <= i < |laid| => laid[i]);
      rocks := PlacedRocks(canvasWidth, rockDraws);
      windSpeed := Wind(windDraw);
    }

    /** `Tank.takeDamage`: health drops by exactly `amount`; if that leaves
        none, the game is over and the opponent wins. Otherwise `gameOver`
        and `winner` are untouched, and `gameOver` is never cleared. */
    method TakeDamage(t: Tank, amount: real)
      requires t == tank1 || t == tank2
      modifies t`health, this`gameOver, this`winner
      ensures t.health == old(t.health) - amount
      ensures gameOver == (old(gameOver) || t.health <= 0.0)
      ensures winner == (if t.health <= 0.0 then Opponent(t) else old(winner))
    {
      t.health := t.health - amount;
      if t.health <= 0.0 {
        gameOver := true;
        winner := Opponent(t);
      }
    }

    /** `destroyTerrain(x, y, radius)`: carve the samples in place, then keep
        the rocks that stand strictly outside the radius on the carved
        ground. */
    method DestroyTerrain(x: real, y: real, radius: real, hypot: (real, real) -> real)
      requires Valid()
      modifies terrain, this`rocks
      ensures Valid()
      ensures terrain[..] == CarvedTerrain(old(terrain[..]), x, y, radius, canvasHeight, hypot)
      ensures rocks == KeptRocks(old(rocks), terrain[..], x, y, radius, canvasHeight, hypot)
    {
      CarvedTerrainKeepsLayout(terrain[..], x, y, radius, canvasHeight, hypot);
      CarveInPlace(terrain, x, y, radius, canvasHeight, hypot);
      rocks := KeptRocks(rocks, terrain[..], x, y, radius, canvasHeight, hypot);
    }

    /** The damage pass of the impact block over `[tank1, tank2]`, in that
        order, on the carved `ground`: each tank nearer than 70 takes
        `SplashDamage` of its distance. If both die, blue is processed last
        and red is the winner. */
    method DamageTanks(ground: seq<Sample>, px: real, py: real, hypot: (real, real) -> real)
      requires |ground| > 0 && tank1 != tank2
      requires !gameOver && winner == null && tank1.health > 0.0 && tank2.health > 0.0
      modifies tank1`health, tank2`health, this`gameOver, this`winner
      ensures terrain[..] == old(terrain[..])
      ensures tank1.health == old(tank1.health) - HealthLoss(TankDistance(ground, tank1.x, px, py, canvasHeight, hypot))
      ensures tank2.health == old(tank2.health) - HealthLoss(TankDistance(ground, tank2.x, px, py, canvasHeight, hypot))
      ensures gameOver <==> tank1.health <= 0.0 || tank2.health <= 0.0
      ensures winner == (if tank2.health <= 0.0 then tank1 else if tank1.health <= 0.0 then tank2 else null)
    {
      var distance1 := TankDistance(ground, tank1.x, px, py, canvasHeight, hypot);
      if distance1 < DamageRadius {
        TakeDamage(tank1, MaxR(0.0, DamageRadius - distance1));
      }
      var distance2 := TankDistance(ground, tank2.x, px, py, canvasHeight, hypot);
      if distance2 < DamageRadius {
        TakeDamage(tank2, MaxR(0.0, DamageRadius - distance2));
      }
    }

    /** The blast of the impact block: carve the terrain and the rocks
        around `(px, py)`, then apply the damage pass on the carved ground. */
    method Explode(px: real, py: real, hypot: (real, real) -> real)
      requires Valid() && Consistent() && !gameOver
      modifies terrain, this`rocks, tank1`health, tank2`health, this`gameOver, this`winner
      ensures Valid() && Settled()
      ensures terrain[..] == CarvedTerrain(old(terrain[..]), px, py, BlastRadius, canvasHeight, hypot)
      ensures rocks == KeptRocks(old(rocks), terrain[..], px, py, BlastRadius, canvasHeight, hypot)
      ensures tank1.health ==
        old(tank1.health) - HealthLoss(TankDistance(terrain[..], tank1.x, px, py, canvasHeight, hypot))
      ensures tank2.health ==
        old(tank2.health) - HealthLoss(TankDistance(terrain[..], tank2.x, px, py, canvasHeight, hypot))
      ensures gameOver <==> tank1.health <= 0.0 || tank2.health <= 0.0
      ensures winner == (if tank2.health <= 0.0 then tank1 else if tank1.health <= 0.0 then tank2 else null)
    {
      DestroyTerrain(px, py, BlastRadius, hypot);
      DamageTanks(terrain[..], px, py, hypot);
    }

    /** The end of the impact block: the shell is gone and, only if the
        game is not over, the turn passes to the opponent and the wind
        changes. `scheduleAI` says whether the AI's turn is now due. */
    method EndShot(windDraw: real) returns (scheduleAI: bool)
      requires Valid() && Settled()
      modifies this`projectile, this`currentTank, this`windSpeed
      ensures Valid() && Consistent()
      ensures terrain[..] == old(terrain[..])
      ensures projectile == null
      ensures currentTank == (if gameOver then old(currentTank) else Opponent(old(currentTank)))
      ensures windSpeed == (if gameOver then old(windSpeed) else Wind(windDraw))
      ensures scheduleAI <==> !gameOver && isAIMode && currentTank == tank2
    {
      projectile := null;
      scheduleAI := false;
      if !gameOver {
        currentTank := Opponent(currentTank);
        windSpeed := Wind(windDraw);
        scheduleAI := isAIMode && currentTank == tank2;
      }
    }

    /** The impact block of `gameLoop` for a shell landing at `(px, py)`:
        the blast carves the terrain, each tank in turn (red, then blue)
        loses `HealthLoss` of its distance, the shell is gone, and — only
        if the game is not over — the turn passes to the opponent and the
        wind changes. A blue hit that kills blue makes red the winner even
        when red died in the same blast. `scheduleAI` says whether the AI's
        turn is now due. */
    method ResolveImpact(px: real, py: real, hypot: (real, real) -> real, windDraw: real)
      returns (scheduleAI: bool)
      requires Valid() && Consistent() && projectile != null
      modifies terrain, this`rocks, tank1`health, tank2`health, this`gameOver, this`winner,
        this`projectile, this`currentTank, this`windSpeed
      ensures Valid() && Consistent()
      ensures terrain[..] == CarvedTerrain(old(terrain[..]), px, py, BlastRadius, canvasHeight, hypot)
      ensures rocks == KeptRocks(old(rocks), terrain[..], px, py, BlastRadius, canvasHeight, hypot)
      ensures tank1.health ==
        old(tank1.health) - HealthLoss(TankDistance(terrain[..], tank1.x, px, py, canvasHeight, hypot))
      ensures tank2.health ==
        old(tank2.health) - HealthLoss(TankDistance(terrain[..], tank2.x, px, py, canvasHeight, hypot))
      ensures gameOver <==> tank1.health <= 0.0 || tank2.health <= 0.0
      ensures winner == (if tank2.health <= 0.0 then tank1 else if tank1.health <= 0.0 then tank2 else null)
      ensures projectile == null
      ensures currentTank == (if gameOver then old(currentTank) else Opponent(old(currentTank)))
      ensures windSpeed == (if gameOver then old(windSpeed) else Wind(windDraw))
      ensures scheduleAI <==> !gameOver && isAIMode && currentTank == tank2
    {
      Explode(px, py, hypot);
      assert currentTank == old(currentTank) && windSpeed == old(windSpeed);
      ghost var ground, kept, over := terrain[..], rocks, gameOver;
      ghost var health1, health2, won := tank1.health, tank2.health, winner;
      scheduleAI := EndShot(windDraw);
      assert terrain[..] == ground && rocks == kept && gameOver == over;
      assert tank1.health == health1 && tank2.health == health2 && winner == won;
    }

    /** The simulation part of one `gameLoop` frame: move the shell in
        flight, and resolve the impact if it has landed. */
    method Tick(cosA: real, sinA: real, hypot: (real, real) -> real, windDraw: real)
      returns (scheduleAI: bool)
      requires Valid() && Consistent()
      modifies this, terrain, tank1, tank2, projectile
      ensures Valid() && Consistent()
      ensures old(projectile) == null ==>
        unchanged(this, tank1, tank2) && unchanged(old(terrain)) && !scheduleAI
      ensures old(projectile) != null ==>
        var p := old(projectile);
        (p.x, p.y, p.time) ==
          FlightStep(old(p.x), old(p.y), old(p.time), p.velocity, p.gravity, cosA, sinA, old(windSpeed)) &&
        p.trail == PushTrail(old(p.trail), Point(p.x, p.y))
      ensures old(projectile) != null ==>
        var p := old(projectile);
        IsImpact(old(terrain[..]), p.x, p.y, canvasWidth, canvasHeight) ==>
          projectile == null &&
          terrain[..] == CarvedTerrain(old(terrain[..]), p.x, p.y, BlastRadius, canvasHeight, hypot) &&
          (currentTank == old(currentTank) <==> gameOver)
      ensures old(projectile) != null ==>
        var p := old(projectile);
        !IsImpact(old(terrain[..]), p.x, p.y, canvasWidth, canvasHeight) ==>
          !scheduleAI && unchanged(this) && unchanged(old(terrain)) && unchanged(tank1, tank2)
    {
      scheduleAI := false;
      var p := projectile;
      if p != null {
        p.Update(cosA, sinA, windSpeed);
        if IsImpact(terrain[..], p.x, p.y, canvasWidth, canvasHeight) {
          scheduleAI := ResolveImpact(p.x, p.y, hypot, windDraw);
        }
      }
    }

    /** The fire button: a shot leaves the current tank only when no shell
        is in flight, the game is running, and it is red's turn or the AI
        is off; otherwise nothing changes. */
    method FireButton() returns (fired: bool)
      requires Valid() && Consistent()
      modifies this`projectile
      ensures Valid() && Consistent()
      ensures fired <==> old(projectile) == null && !gameOver && (currentTank == tank1 || !isAIMode)
      ensures fired ==> fresh(projectile) && IsShotOf(projectile, currentTank)
      ensures !fired ==> projectile == old(projectile)
    {
      fired := projectile == null && !gameOver && (currentTank == tank1 || !isAIMode);
      if fired {
        projectile := currentTank.Fire(terrain[..], canvasWidth as real, canvasHeight);
      }
    }

    /** `AITurn`: on blue's turn in a running game, aim from the distance
        and the height difference of the two tanks, add the jitter, and
        fire — even if a shell is already in flight, which it replaces. */
    method AITurn(angleDraw: real, powerDraw: real) returns (fired: bool)
      requires Valid() && Consistent()
      modifies tank2`angle, tank2`power, this`projectile
      ensures Valid() && Consistent()
      ensures fired <==> !gameOver && currentTank == tank2
      ensures fired ==>
        var distance := AbsR(tank2.x - tank1.x);
        var heightDifference := TankHeight(terrain[..], tank2.x) - TankHeight(terrain[..], tank1.x);
        AIBaseAngle(heightDifference, distance).Some? &&
        tank2.angle == Jitter(AIBaseAngle(heightDifference, distance).value, angleDraw, 10.0) &&
        tank2.power == Jitter(AIBasePower(distance), powerDraw, 100.0) &&
        fresh(projectile) && IsShotOf(projectile, tank2)
      ensures !fired ==> unchanged(tank2) && projectile == old(projectile)
    {
      fired := !gameOver && currentTank == tank2;
      if fired {
        var distance := AbsR(tank2.x - tank1.x);
        var heightDifference := TankHeight(terrain[..], tank2.x) - TankHeight(terrain[..], tank1.x);
        var baseAngle := AIBaseAngle(heightDifference, distance);
        tank2.angle := Jitter(baseAngle.value, angleDraw, 10.0);
        tank2.power := Jitter(AIBasePower(distance), powerDraw, 100.0);
        projectile := tank2.Fire(terrain[..], canvasWidth as real, canvasHeight);
      }
    }

    /** The AI checkbox: switching it on during blue's turn makes the AI's
        turn due. */
    method SetAIMode(on: bool) returns (scheduleAI: bool)
      modifies this`isAIMode
      ensures isAIMode == on
      ensures scheduleAI <==> on && currentTank == tank2
    {
      isAIMode := on;
      scheduleAI := on && currentTank == tank2;
    }

    /** `resetGame`: full health, no winner, red to move, no shell, new
        terrain, rocks and wind. The tanks' angle and power and the AI
        setting are kept. */
    method ResetGame(heights: seq<real>, rockDraws: seq<(real, real)>, windDraw: real)
      requires Valid()
      requires |heights| == SampleCount(canvasWidth) && |rockDraws| == RockCount
      modifies this, tank1`health, tank2`health
      ensures Valid() && Consistent()
      ensures !gameOver && winner == null
      ensures tank1.health == FullHealth && tank2.health == FullHealth
      ensures currentTank == tank1 && projectile == null
      ensures fresh(terrain) && terrain[..] == LaidOutTerrain(heights)
      ensures rocks == PlacedRocks(canvasWidth, rockDraws)
      ensures windSpeed == Wind(windDraw)
      ensures isAIMode == old(isAIMode)
    {
      gameOver := false;
      winner := null;
      tank1.health := FullHealth;
      tank2.health := FullHealth;
      currentTank := tank1;
      projectile := null;
      var laid := LaidOutTerrain(heights);
      terrain := new Sample[|laid|](i requires 0 <= i < |laid| => laid[i]);
      rocks := PlacedRocks(canvasWidth, rockDraws);
      windSpeed := Wind(windDraw);
    }

    /** A click on the canvas restarts a finished game and does nothing
        during a running one. */
    method CanvasClick(heights: seq<real>, rockDraws: seq<(real, real)>, windDraw: real)
      requires Valid() && Consistent()
      requires |heights| == SampleCount(canvasWidth) && |rockDraws| == RockCount
      modifies this, tank1`health, tank2`health
      ensures Valid() && Consistent()
      ensures old(gameOver) ==>
        !gameOver && winner == null &&
        tank1.health == FullHealth && tank2.health == FullHealth &&
        currentTank == tank1 && projectile == null &&
        fresh(terrain) && terrain[..] == LaidOutTerrain(heights) &&
        rocks == PlacedRocks(canvasWidth, rockDraws) &&
        windSpeed == Wind(windDraw) &&
        isAIMode == old(isAIMode)
      ensures !old(gameOver) ==> unchanged(this, tank1, tank2)
    {
      if gameOver {
        ResetGame(heights, rockDraws, windDraw);
      }
    }
  }
}
