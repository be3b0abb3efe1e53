/**
 * The first-person player controller: look angles, walking, jumping and
 * gravity, push-out against the level's colliders, and the weapon (clip,
 * reserve, reload timer, shot cooldown, recoil, and the shot record that the
 * hit test consumes).
 *
 * The pure functions below say what one handler does to a `PlayerState`;
 * the class `Player` keeps the same state in fields and updates them in
 * place, and each of its methods is proved to agree with its function.
 */
module FpsPlayer {
  import opened Optional
  import opened FpsGeometry
  import opened FpsWorld

  const MoveSpeed: real := 10.0
  const SprintSpeed: real := 16.0
  const JumpForce: real := 8.0
  const GravityAccel: real := -25.0
  const MaxHealth: int := 100
  const MaxAmmo: int := 30
  const StartReserve: int := 90
  const ReloadTime: real := 2.0
  const ShootCooldown: real := 0.15
  const RecoilKick: real := 0.1
  const RecoilRecovery: real := 5.0
  const MouseSensitivity: real := 0.002
  const PlayerRadius: real := 0.5
  /** Eye height of a player standing on the ground plane. */
  const GroundHeight: real := 2.0
  /** How far above a box's top the player still collides with it. */
  const Clearance: real := 2.0
  /** A shot can be matched against a target for this many milliseconds. */
  const ShotWindow: real := 100.0
  /** Targets this far from the camera or farther are never hit. */
  const ShotRange: real := 100.0
  /** JavaScript's `Math.PI`, the double closest to pi. */
  const Pi: real := 3.141592653589793
  const HalfPi: real := Pi / 2.0

  /**
   * What the input manager reports for one tick: the mouse motion
   * accumulated since the last tick (consumed by this read) and the keys and
   * button held down.
   */
  datatype Input = Input(
    mouseDx: real, mouseDy: real,
    keyW: bool, keyS: bool, keyA: bool, keyD: bool,
    shift: bool,      // ShiftLeft or ShiftRight
    space: bool,
    keyR: bool,
    mouseLeft: bool)  // mouse button 0

  /** The player's fields. `yaw` and `pitch` are `rotation.y` and `rotation.x`. */
  datatype PlayerState = PlayerState(
    position: Vec3, velocity: Vec3, yaw: real, pitch: real,
    isOnGround: bool, canJump: bool, health: int,
    ammo: int, reserveAmmo: int, isReloading: bool, reloadTimer: real,
    shootTimer: real, lastShotDirection: Option<Vec3>, shotTime: real,
    recoil: real)

  /** The invariant every completed tick keeps. */
  ghost predicate Inv(s: PlayerState) {
    && 0 <= s.health <= MaxHealth
    && 0 <= s.ammo <= MaxAmmo && 0 <= s.reserveAmmo
    && (s.isReloading ==> 0.0 < s.reloadTimer <= ReloadTime)
    && s.shootTimer <= ShootCooldown
    && 0.0 <= s.recoil
    && -HalfPi <= s.pitch <= HalfPi
    && GroundHeight <= s.position.y
    && (s.isOnGround <==> s.position.y == GroundHeight)
    && (s.isOnGround ==> s.velocity.y == 0.0)
  }

  /** A new player: standing in the air at (0, 5, 0), full clip, 90 in reserve. */
  function InitialPlayer(): (s: PlayerState)
    ensures Inv(s)
    ensures s.ammo == MaxAmmo && s.reserveAmmo == StartReserve && s.health == MaxHealth
    ensures s.position == Vec3(0.0, 5.0, 0.0) && !s.isOnGround && s.canJump
  {
    PlayerState(Vec3(0.0, 5.0, 0.0), Zero, 0.0, 0.0, false, true, MaxHealth,
                MaxAmmo, StartReserve, false, 0.0, 0.0, None, 0.0, 0.0)
  }

  // ----- looking around -----

  /** `Math.max(-PI/2, Math.min(PI/2, p))`. */
  function ClampPitch(p: real): (r: real)
    ensures -HalfPi <= r <= HalfPi
    ensures -HalfPi <= p <= HalfPi ==> r == p
    ensures p < -HalfPi ==> r == -HalfPi
    ensures HalfPi < p ==> r == HalfPi
  {
    MaxReal(-HalfPi, MinReal(HalfPi, p))
  }

  /** `handleRotation`: turn by the mouse motion; pitch is clamped, yaw is not. */
  function Rotate(s: PlayerState, dx: real, dy: real): (r: PlayerState)
    ensures -HalfPi <= r.pitch <= HalfPi
    ensures r.yaw == s.yaw - dx * MouseSensitivity
    ensures -HalfPi <= s.pitch - dy * MouseSensitivity <= HalfPi ==> r.pitch == s.pitch - dy * MouseSensitivity
    ensures r.pitch == ClampPitch(s.pitch - dy * MouseSensitivity)
    ensures r == s.(yaw := r.yaw, pitch := r.pitch)
  {
    s.(yaw := s.yaw - dx * MouseSensitivity, pitch := ClampPitch(s.pitch - dy * MouseSensitivity))
  }

  // ----- walking and jumping -----

  /** The camera's forward direction with its vertical part removed, normalised. */
  function Heading(view: Vec3, sqrt: real -> real): Vec3 {
    Normalize(Vec3(view.x, 0.0, view.z), sqrt)
  }

  /** The sum of the held direction keys' contributions. */
  function MoveVector(input: Input, forward: Vec3, right: Vec3): Vec3 {
    var m0 := Zero;
    var m1 := if input.keyW then Add(m0, forward) else m0;
    var m2 := if input.keyS then Sub(m1, forward) else m1;
    var m3 := if input.keyA then Sub(m2, right) else m2;
    if input.keyD then Add(m3, right) else m3
  }

  /** The un-normalised direction the movement keys ask for, relative to where the camera looks. */
  function KeyDirection(input: Input, view: Vec3, sqrt: real -> real): Vec3 {
    var forward := Heading(view, sqrt);
    MoveVector(input, forward, Normalize(Cross(forward, Up), sqrt))
  }

  function Speed(input: Input): real {
    if input.shift then SprintSpeed else MoveSpeed
  }

  /**
   * The horizontal velocity for the key direction `m`: zero when the keys
   * cancel out, otherwise `m` normalised and scaled by `speed`. The vertical
   * velocity is kept.
   */
  function Steer(velocity: Vec3, m: Vec3, speed: real, sqrt: real -> real): (v: Vec3)
    ensures v.y == velocity.y
    ensures sqrt(LengthSq(m)) <= 0.0 ==> v.x == 0.0 && v.z == 0.0
    ensures 0.0 < sqrt(LengthSq(m)) ==>
              v.x * m.z == v.z * m.x && (0.0 <= speed ==> 0.0 <= v.x * m.x + v.z * m.z)
  {
    if 0.0 < sqrt(LengthSq(m)) then
      var n := Normalize(m, sqrt);
      var c := 1.0 / sqrt(LengthSq(m)) * speed;
      assert n.x * speed == m.x * c && n.z * speed == m.z * c;
      ScaledAlong(m, Vec3(n.x * speed, velocity.y, n.z * speed), c);
      Vec3(n.x * speed, velocity.y, n.z * speed)
    else
      Vec3(0.0, velocity.y, 0.0)
  }

  /** The movement keys only ever produce a horizontal vector. */
  lemma KeyDirectionIsHorizontal(input: Input, view: Vec3, sqrt: real -> real)
    ensures KeyDirection(input, view, sqrt).y == 0.0
  {
    var fwd := Heading(view, sqrt);
    NormalizeKeepsHorizontal(Vec3(view.x, 0.0, view.z), sqrt);
    assert fwd.y == 0.0;
    assert Cross(fwd, Up).y == 0.0;
    NormalizeKeepsHorizontal(Cross(fwd, Up), sqrt);
  }

  /**
   * Whenever the keys select a direction, the new horizontal speed is
   * exactly the walking or sprinting speed, whatever the view and the keys.
   */
  lemma SteerKeepsSpeed(velocity: Vec3, input: Input, view: Vec3, sqrt: real -> real)
    requires IsSquareRoot(sqrt) && 0.0 < sqrt(LengthSq(KeyDirection(input, view, sqrt)))
    ensures HorizontalSpeedSq(Steer(velocity, KeyDirection(input, view, sqrt), Speed(input), sqrt)) == Speed(input) * Speed(input)
  {
    var m := KeyDirection(input, view, sqrt);
    var v := Steer(velocity, m, Speed(input), sqrt);
    KeyDirectionIsHorizontal(input, view, sqrt);
    DirectionSpeed(m, sqrt, v, Speed(input));
  }

  /** The jump edge-guard: a jump needs Space held, the ground underfoot, and a released key since the last jump. */
  predicate JumpGuard(s: PlayerState, space: bool) {
    space && s.isOnGround && s.canJump
  }

  /** The jump part of `handleMovement`. */
  function Jump(s: PlayerState, space: bool): (r: PlayerState)
    ensures JumpGuard(s, space) ==> r.velocity.y == JumpForce && !r.isOnGround && !r.canJump
    ensures !JumpGuard(s, space) ==> r.velocity == s.velocity && r.isOnGround == s.isOnGround
    ensures !space ==> r.canJump
    ensures r.canJump && !s.canJump ==> !space
    ensures space && !JumpGuard(s, space) ==> r.canJump == s.canJump
    ensures r.velocity.x == s.velocity.x && r.velocity.z == s.velocity.z
    ensures r == s.(velocity := r.velocity, isOnGround := r.isOnGround, canJump := r.canJump)
  {
    var s1 := if JumpGuard(s, space)
              then s.(velocity := s.velocity.(y := JumpForce), isOnGround := false, canJump := false)
              else s;
    if !space then s1.(canJump := true) else s1
  }

  // ----- collisions -----

  /** The player's z and y overlap the box's slab, so the box blocks movement along x. */
  predicate GateX(p: Vec3, b: Aabb) {
    b.min.z - PlayerRadius < p.z < b.max.z + PlayerRadius && b.min.y < p.y < b.max.y + Clearance
  }

  /** The player's x and y overlap the box's slab, so the box blocks movement along z. */
  predicate GateZ(p: Vec3, b: Aabb) {
    b.min.x - PlayerRadius < p.x < b.max.x + PlayerRadius && b.min.y < p.y < b.max.y + Clearance
  }

  function PushX(p: Vec3, b: Aabb): Vec3 {
    if !GateX(p, b) then p
    else if b.min.x - PlayerRadius < p.x < b.min.x then p.(x := b.min.x - PlayerRadius)
    else if b.max.x < p.x < b.max.x + PlayerRadius then p.(x := b.max.x + PlayerRadius)
    else p
  }

  function PushZ(p: Vec3, b: Aabb): Vec3 {
    if !GateZ(p, b) then p
    else if b.min.z - PlayerRadius < p.z < b.min.z then p.(z := b.min.z - PlayerRadius)
    else if b.max.z < p.z < b.max.z + PlayerRadius then p.(z := b.max.z + PlayerRadius)
    else p
  }

  /**
   * Resolution against one box: first along x, then along z with the new x.
   * A coordinate in the half-radius band just outside a face is snapped onto
   * the band's outer edge; a coordinate inside the box is left alone, and y
   * never changes.
   */
  function CollideOne(p: Vec3, b: Aabb): (r: Vec3)
    ensures r.y == p.y
    ensures b.min.x <= p.x <= b.max.x ==> r.x == p.x
    ensures b.min.z <= p.z <= b.max.z ==> r.z == p.z
    ensures r.x == p.x || r.x == b.min.x - PlayerRadius || r.x == b.max.x + PlayerRadius
    ensures r.z == p.z || r.z == b.min.z - PlayerRadius || r.z == b.max.z + PlayerRadius
    ensures GateX(p, b) && b.min.x - PlayerRadius < p.x < b.min.x ==> r.x == b.min.x - PlayerRadius
    ensures GateX(p, b) && b.min.x <= b.max.x < p.x < b.max.x + PlayerRadius ==> r.x == b.max.x + PlayerRadius
    ensures GateZ(r, b) && b.min.z - PlayerRadius < p.z < b.min.z ==> r.z == b.min.z - PlayerRadius
    ensures GateZ(r, b) && b.min.z <= b.max.z < p.z < b.max.z + PlayerRadius ==> r.z == b.max.z + PlayerRadius
    ensures !GateX(p, b) ==> r.x == p.x
    ensures !GateZ(r, b) ==> r.z == p.z
    ensures !(b.min.x - PlayerRadius < p.x < b.min.x) && !(b.max.x < p.x < b.max.x + PlayerRadius) ==> r.x == p.x
    ensures !(b.min.z - PlayerRadius < p.z < b.min.z) && !(b.max.z < p.z < b.max.z + PlayerRadius) ==> r.z == p.z
  {
    PushZ(PushX(p, b), b)
  }

  /** `handleCollisions`: resolve against every collider in table order. */
  function CollideAll(p: Vec3, cs: seq<Aabb>): (r: Vec3)
    ensures r.y == p.y
    ensures r.x == p.x || exists i :: 0 <= i < |cs| && (r.x == cs[i].min.x - PlayerRadius || r.x == cs[i].max.x + PlayerRadius)
    ensures r.z == p.z || exists i :: 0 <= i < |cs| && (r.z == cs[i].min.z - PlayerRadius || r.z == cs[i].max.z + PlayerRadius)
  {
    if |cs| == 0 then p
    else
      var init := cs[..|cs| - 1];
      var q := CollideAll(p, init);
      assert forall i :: 0 <= i < |init| ==> init[i] == cs[i];
      CollideOne(q, cs[|cs| - 1])
  }

  /**
   * `handleMovement`: set the horizontal velocity from the keys, apply the
   * jump guard, move horizontally by velocity times dt, then resolve
   * collisions. Height is untouched.
   */
  function Move(s: PlayerState, input: Input, view: Vec3, dt: real, colliders: seq<Aabb>, sqrt: real -> real): (r: PlayerState)
    ensures r.position.y == s.position.y
    ensures var v := Steer(s.velocity, KeyDirection(input, view, sqrt), Speed(input), sqrt);
            r.velocity.x == v.x && r.velocity.z == v.z
    ensures r.position == CollideAll(Displace(s.position, r.velocity, dt), colliders)
    ensures var j := Jump(s, input.space);
            r.velocity.y == j.velocity.y && r.isOnGround == j.isOnGround && r.canJump == j.canJump
    ensures r == s.(position := r.position, velocity := r.velocity, isOnGround := r.isOnGround, canJump := r.canJump)
  {
    var s1 := Advance(Jump(s.(velocity := Steer(s.velocity, KeyDirection(input, view, sqrt), Speed(input), sqrt)), input.space), dt);
    s1.(position := CollideAll(s1.position, colliders))
  }

  /** Horizontal motion at the current velocity for dt seconds. */
  function Advance(s: PlayerState, dt: real): PlayerState {
    s.(position := Displace(s.position, s.velocity, dt))
  }

  function Displace(p: Vec3, v: Vec3, dt: real): Vec3 {
    p.(x := p.x + v.x * dt, z := p.z + v.z * dt)
  }

  // ----- the weapon -----

  /** `shoot`: spend a round, kick the view up and record the shot. */
  function Fire(s: PlayerState, view: Vec3, now: real): (r: PlayerState)
    ensures r.ammo == s.ammo - 1 && r.recoil == s.recoil + RecoilKick
    ensures r.lastShotDirection == Some(view) && r.shotTime == now
    ensures r == s.(ammo := r.ammo, recoil := r.recoil, lastShotDirection := r.lastShotDirection, shotTime := r.shotTime)
  {
    s.(ammo := s.ammo - 1, recoil := s.recoil + RecoilKick, lastShotDirection := Some(view), shotTime := now)
  }

  /** The fire guard, checked after the cooldown timer has run down by dt. */
  predicate Fires(s: PlayerState, dt: real, trigger: bool) {
    trigger && s.shootTimer - dt <= 0.0 && !s.isReloading && 0 < s.ammo
  }

  /** `handleShooting`. */
  function Shooting(s: PlayerState, dt: real, trigger: bool, view: Vec3, now: real): (r: PlayerState)
    ensures Fires(s, dt, trigger) <==> r.ammo < s.ammo
    ensures Fires(s, dt, trigger) ==>
              && r.ammo == s.ammo - 1 && r.recoil == s.recoil + RecoilKick && r.shootTimer == ShootCooldown
              && r.lastShotDirection == Some(view) && r.shotTime == now
    ensures !Fires(s, dt, trigger) ==> r == s.(shootTimer := s.shootTimer - dt)
    ensures 0 <= s.ammo ==> 0 <= r.ammo
    ensures r == s.(ammo := r.ammo, recoil := r.recoil, shootTimer := r.shootTimer,
                    lastShotDirection := r.lastShotDirection, shotTime := r.shotTime)
  {
    var s1 := s.(shootTimer := s.shootTimer - dt);
    if Fires(s, dt, trigger) then Fire(s1, view, now).(shootTimer := ShootCooldown) else s1
  }

  /** The reload timer runs out on this tick. */
  predicate ReloadDone(s: PlayerState, dt: real) {
    s.isReloading && s.reloadTimer - dt <= 0.0
  }

  predicate CanStartReload(s: PlayerState, pressed: bool) {
    pressed && !s.isReloading && s.ammo < MaxAmmo && 0 < s.reserveAmmo
  }

  /** First half of `handleReload`: run the timer down and, when it expires, refill the clip. */
  function FinishReload(s: PlayerState, dt: real): PlayerState {
    if !s.isReloading then s
    else if s.reloadTimer - dt <= 0.0 then
      var n := MinInt(MaxAmmo - s.ammo, s.reserveAmmo);
      s.(reloadTimer := s.reloadTimer - dt, ammo := s.ammo + n, reserveAmmo := s.reserveAmmo - n, isReloading := false)
    else s.(reloadTimer := s.reloadTimer - dt)
  }

  /**
   * `handleReload`. Rounds only move between reserve and clip; a finished
   * reload moves min(30 - ammo, reserve) of them; a reload starts (timer 2 s)
   * exactly when R is held, none is running, the clip is not full and the
   * reserve is not empty.
   */
  function Reloading(s: PlayerState, dt: real, pressed: bool): (r: PlayerState)
    ensures r.ammo + r.reserveAmmo == s.ammo + s.reserveAmmo
    ensures ReloadDone(s, dt) ==> r.ammo == s.ammo + MinInt(MaxAmmo - s.ammo, s.reserveAmmo)
    ensures !ReloadDone(s, dt) ==> r.ammo == s.ammo
    ensures 0 <= s.ammo <= MaxAmmo && 0 <= s.reserveAmmo ==>
              s.ammo <= r.ammo <= MaxAmmo && 0 <= r.reserveAmmo
    ensures s.isReloading && !ReloadDone(s, dt) ==> r.isReloading && r.reloadTimer == s.reloadTimer - dt
    ensures !s.isReloading || ReloadDone(s, dt) ==>
              (r.isReloading <==> pressed && r.ammo < MaxAmmo && 0 < r.reserveAmmo)
    ensures r.isReloading && (!s.isReloading || ReloadDone(s, dt)) ==> r.reloadTimer == ReloadTime
    ensures 0.0 <= dt && (s.isReloading ==> s.reloadTimer <= ReloadTime) ==>
              (r.isReloading ==> 0.0 < r.reloadTimer <= ReloadTime)
    ensures r == s.(ammo := r.ammo, reserveAmmo := r.reserveAmmo, isReloading := r.isReloading, reloadTimer := r.reloadTimer)
  {
    var s1 := FinishReload(s, dt);
    if CanStartReload(s1, pressed) then s1.(isReloading := true, reloadTimer := ReloadTime) else s1
  }

  /** `handleRecoil`: recoil falls linearly at 5 per second and stops at 0. */
  function RecoilDecay(s: PlayerState, dt: real): (r: PlayerState)
    ensures 0.0 <= s.recoil ==> 0.0 <= r.recoil
    ensures 0.0 <= dt ==> r.recoil <= s.recoil
    ensures 0.0 < s.recoil && RecoilRecovery * dt < s.recoil ==> r.recoil == s.recoil - RecoilRecovery * dt
    ensures 0.0 < s.recoil <= RecoilRecovery * dt ==> r.recoil == 0.0
    ensures r == s.(recoil := r.recoil)
  {
    if 0.0 < s.recoil then s.(recoil := MaxReal(0.0, s.recoil - RecoilRecovery * dt)) else s
  }

  /**
   * `applyGravity`: accelerate downwards while airborne, move vertically, and
   * land on the ground plane at eye height 2. Afterwards the player is at
   * height 2 or above, on the ground exactly at height 2, and still there.
   */
  function Gravity(s: PlayerState, dt: real): (r: PlayerState)
    ensures GroundHeight <= r.position.y
    ensures r.isOnGround <==> r.position.y == GroundHeight
    ensures r.isOnGround ==> r.velocity.y == 0.0
    ensures !r.isOnGround ==>
              r.velocity.y == (if s.isOnGround then s.velocity.y else s.velocity.y + GravityAccel * dt)
    ensures var vy := if s.isOnGround then s.velocity.y else s.velocity.y + GravityAccel * dt;
            var y := s.position.y + vy * dt;
            && (y <= GroundHeight ==> r.position.y == GroundHeight && r.isOnGround)
            && (GroundHeight < y ==> r.position.y == y && r.velocity.y == vy && !r.isOnGround)
    ensures r.position.x == s.position.x && r.position.z == s.position.z
    ensures r.velocity.x == s.velocity.x && r.velocity.z == s.velocity.z
    ensures r == s.(position := r.position, velocity := r.velocity, isOnGround := r.isOnGround)
  {
    var vy := if !s.isOnGround then s.velocity.y + GravityAccel * dt else s.velocity.y;
    var y := s.position.y + vy * dt;
    if y <= GroundHeight then
      s.(position := s.position.(y := GroundHeight), velocity := s.velocity.(y := 0.0), isOnGround := true)
    else
      s.(position := s.position.(y := y), velocity := s.velocity.(y := vy), isOnGround := false)
  }

  /**
   * `update`: rotation, movement, shooting, reloading, recoil, gravity, in
   * that order. A tick keeps the invariant, never changes health, and raises
   * recoil only by firing a round.
   */
  function Step(s: PlayerState, input: Input, view: Vec3, dt: real, now: real, colliders: seq<Aabb>, sqrt: real -> real): (r: PlayerState)
    requires 0.0 <= dt
    ensures Inv(s) ==> Inv(r)
    ensures r.health == s.health
    ensures s.recoil < r.recoil ==> r.ammo == s.ammo - 1
    ensures r.ammo + r.reserveAmmo == s.ammo + s.reserveAmmo || r.ammo + r.reserveAmmo == s.ammo + s.reserveAmmo - 1
  {
    var s1 := Rotate(s, input.mouseDx, input.mouseDy);
    var s2 := Move(s1, input, view, dt, colliders, sqrt);
    var s3 := Shooting(s2, dt, input.mouseLeft, view, now);
    var s4 := Reloading(s3, dt, input.keyR);
    var s5 := RecoilDecay(s4, dt);
    Gravity(s5, dt)
  }

  // ----- hit test and damage -----

  /**
   * `checkShootHit`: whether the recorded shot hits a sphere of `radius`
   * around `target`, and what becomes of the record. No record: no hit. A
   * record older than 100 ms is discarded without a hit. A hit discards the
   * record, so one shot hits at most once. The ray starts at the player's
   * position (where the camera is put at the end of each tick); distances
   * are compared through their squares.
   */
  function HitTest(s: PlayerState, target: Vec3, radius: real, now: real): (r: (bool, Option<Vec3>))
    ensures s.lastShotDirection.None? ==> r == (false, None)
    ensures s.lastShotDirection.Some? && ShotWindow < now - s.shotTime ==> r == (false, None)
    ensures r.0 ==> r.1.None? && s.lastShotDirection.Some? && now - s.shotTime <= ShotWindow
                    && Within(DistanceSq(s.position, target), ShotRange)
    ensures r.0 ==> Within(DistanceSq(ClosestPointOnRay(s.position, s.lastShotDirection.value, target), target), radius)
    ensures !r.0 && s.lastShotDirection.Some? && now - s.shotTime <= ShotWindow ==> r.1 == s.lastShotDirection
    ensures (&& s.lastShotDirection.Some? && now - s.shotTime <= ShotWindow
             && Within(DistanceSq(ClosestPointOnRay(s.position, s.lastShotDirection.value, target), target), radius)
             && Within(DistanceSq(s.position, target), ShotRange)) ==> r.0
  {
    match s.lastShotDirection
    case None => (false, None)
    case Some(dir) =>
      if ShotWindow < now - s.shotTime then (false, None)
      else
        var closest := ClosestPointOnRay(s.position, dir, target);
        if Within(DistanceSq(closest, target), radius) && Within(DistanceSq(s.position, target), ShotRange)
        then (true, None)
        else (false, s.lastShotDirection)
  }

  /** A shot that has hit once hits nothing else. */
  lemma ShotHitsAtMostOnce(s: PlayerState, t1: Vec3, r1: real, t2: Vec3, r2: real, now1: real, now2: real)
    requires HitTest(s, t1, r1, now1).0
    ensures !HitTest(s.(lastShotDirection := HitTest(s, t1, r1, now1).1), t2, r2, now2).0
  {
  }

  /** `takeDamage`: lose `amount` health, but never drop below 0. */
  function PlayerDamaged(s: PlayerState, amount: int): (r: PlayerState)
    ensures 0 <= r.health
    ensures 0 <= s.health - amount ==> r.health == s.health - amount
    ensures s.health - amount < 0 ==> r.health == 0
    ensures 0 <= amount && s.health <= MaxHealth ==> r.health <= MaxHealth
    ensures r == s.(health := r.health)
  {
    s.(health := MaxInt(0, s.health - amount))
  }

  /** The magazine scenario: an empty clip with 90 in reserve, reloaded, holds 30 with 60 left. */
  lemma ReloadFromEmpty(s: PlayerState, dt1: real, dt2: real)
    requires s.ammo == 0 && s.reserveAmmo == 90 && !s.isReloading
    requires 0.0 <= dt1 && ReloadTime <= dt2
    ensures var started := Reloading(s, dt1, true);
            started.isReloading && started.reloadTimer == ReloadTime
            && Reloading(started, dt2, false).ammo == MaxAmmo
            && Reloading(started, dt2, false).reserveAmmo == 60
            && !Reloading(started, dt2, false).isReloading
  {
  }

  /**
   * The player object. It holds the same state as `PlayerState`, one field
   * per component, and reads the world's collider table.
   */
  class Player {
    const world: World
    var position: Vec3
    var velocity: Vec3
    var yaw: real
    var pitch: real
    var isOnGround: bool
    var canJump: bool
    var health: int
    var ammo: int
    var reserveAmmo: int
    var isReloading: bool
    var reloadTimer: real
    var shootTimer: real
    var lastShotDirection: Option<Vec3>
    var shotTime: real
    var recoil: real

    function State(): PlayerState
      reads this
    {
      PlayerState(position, velocity, yaw, pitch, isOnGround, canJump, health,
                  ammo, reserveAmmo, isReloading, reloadTimer, shootTimer,
                  lastShotDirection, shotTime, recoil)
    }

    ghost predicate Valid()
      reads this
    {
      Inv(State())
    }

    constructor (world: World)
      ensures this.world == world
      ensures State() == InitialPlayer() && Valid()
    {
      this.world := world;
      position := Vec3(0.0, 5.0, 0.0);
      velocity := Zero;
      yaw, pitch := 0.0, 0.0;
      isOnGround, canJump := false, true;
      health := MaxHealth;
      ammo, reserveAmmo := MaxAmmo, StartReserve;
      isReloading, reloadTimer := false, 0.0;
      shootTimer := 0.0;
      lastShotDirection, shotTime := None, 0.0;
      recoil := 0.0;
    }

    /**
     * One tick of the controller. `view` is the camera's world direction as
     * last rendered, `now` the clock in milliseconds, and `dt` the elapsed
     * seconds, never negative because the clock is monotonic.
     */
    method Update(dt: real, input: Input, view: Vec3, now: real, sqrt: real -> real)
      requires Valid() && 0.0 <= dt
      modifies this
      ensures Valid()
      ensures State() == Step(old(State()), input, view, dt, now, world.colliders, sqrt)
    {
      HandleRotation(input);
      HandleMovement(dt, input, view, sqrt);
      HandleShooting(dt, input.mouseLeft, view, now);
      HandleReload(dt, input.keyR);
      HandleRecoil(dt);
      ApplyGravity(dt);
    }

    method HandleRotation(input: Input)
      modifies this
      ensures State() == Rotate(old(State()), input.mouseDx, input.mouseDy)
    {
      yaw := yaw - input.mouseDx * MouseSensitivity;
      pitch := pitch - input.mouseDy * MouseSensitivity;
      pitch := MaxReal(-HalfPi, MinReal(HalfPi, pitch));
    }

    method HandleMovement(dt: real, input: Input, view: Vec3, sqrt: real -> real)
      modifies this
      ensures State() == Move(old(State()), input, view, dt, world.colliders, sqrt)
    {
      SetWalkVelocity(input, view, sqrt);
      TryJump(input.space);
      ghost var jumped := State();
      position := Displace(position, velocity, dt);
      assert State() == Advance(jumped, dt);
      HandleCollisions();
    }

    /** The jump part of `handleMovement`, with its edge guard on Space. */
    method TryJump(space: bool)
      modifies this
      ensures State() == Jump(old(State()), space)
    {
      if space && isOnGround && canJump {
        velocity := velocity.(y := JumpForce);
        isOnGround := false;
        canJump := false;
      }
      if !space {
        canJump := true;
      }
    }

    /** The first part of `handleMovement`: the horizontal velocity from the keys and the view. */
    method SetWalkVelocity(input: Input, view: Vec3, sqrt: real -> real)
      modifies this
      ensures State() == old(State()).(velocity := Steer(old(velocity), KeyDirection(input, view, sqrt), Speed(input), sqrt))
    {
      var forward := Heading(view, sqrt);
      var right := Normalize(Cross(forward, Up), sqrt);
      var moveVector := MoveVector(input, forward, right);
      var currentSpeed := if input.shift then SprintSpeed else MoveSpeed;
      if 0.0 < sqrt(LengthSq(moveVector)) {
        var n := Normalize(moveVector, sqrt);
        velocity := velocity.(x := n.x * currentSpeed, z := n.z * currentSpeed);
      } else {
        velocity := velocity.(x := 0.0, z := 0.0);
      }
    }

    method HandleCollisions()
      modifies this
      ensures State() == old(State()).(position := CollideAll(old(position), world.colliders))
    {
      var colliders := world.GetColliders();
      for i := 0 to |colliders|
        invariant State() == old(State()).(position := CollideAll(old(position), colliders[..i]))
      {
        PushOutOf(colliders[i]);
        assert colliders[..i + 1][..i] == colliders[..i];
      }
      assert colliders[..|colliders|] == colliders;
    }

    /** The body of the collision loop: push the player out of one box, along x and then along z. */
    method PushOutOf(b: Aabb)
      modifies this
      ensures State() == old(State()).(position := CollideOne(old(position), b))
    {
      if b.min.z - PlayerRadius < position.z < b.max.z + PlayerRadius && b.min.y < position.y < b.max.y + Clearance {
        if b.min.x - PlayerRadius < position.x < b.min.x {
          position := position.(x := b.min.x - PlayerRadius);
        } else if b.max.x < position.x < b.max.x + PlayerRadius {
          position := position.(x := b.max.x + PlayerRadius);
        }
      }
      if b.min.x - PlayerRadius < position.x < b.max.x + PlayerRadius && b.min.y < position.y < b.max.y + Clearance {
        if b.min.z - PlayerRadius < position.z < b.min.z {
          position := position.(z := b.min.z - PlayerRadius);
        } else if b.max.z < position.z < b.max.z + PlayerRadius {
          position := position.(z := b.max.z + PlayerRadius);
        }
      }
    }

    method HandleShooting(dt: real, trigger: bool, view: Vec3, now: real)
      modifies this
      ensures State() == Shooting(old(State()), dt, trigger, view, now)
    {
      shootTimer := shootTimer - dt;
      if trigger && shootTimer <= 0.0 && !isReloading && 0 < ammo {
        Shoot(view, now);
        shootTimer := ShootCooldown;
      }
    }

    method Shoot(view: Vec3, now: real)
      modifies this
      ensures State() == Fire(old(State()), view, now)
    {
      ammo := ammo - 1;
      recoil := recoil + RecoilKick;
      lastShotDirection := Some(view);
      shotTime := now;
    }

    method CheckShootHit(target: Vec3, radius: real, now: real) returns (hit: bool)
      modifies this
      ensures (hit, lastShotDirection) == HitTest(old(State()), target, radius, now)
      ensures State() == old(State()).(lastShotDirection := lastShotDirection)
    {
      if lastShotDirection.None? {
        return false;
      }
      if ShotWindow < now - shotTime {
        lastShotDirection := None;
        return false;
      }
      var distance2 := DistanceSq(position, target);
      var closest := ClosestPointOnRay(position, lastShotDirection.value, target);
      var toRay2 := DistanceSq(closest, target);
      if Within(toRay2, radius) && Within(distance2, ShotRange) {
        lastShotDirection := None;
        return true;
      }
      return false;
    }

    method HandleReload(dt: real, pressed: bool)
      modifies this
      ensures State() == Reloading(old(State()), dt, pressed)
    {
      if isReloading {
        reloadTimer := reloadTimer - dt;
        if reloadTimer <= 0.0 {
          var ammoNeeded := MaxAmmo - ammo;
          var ammoToReload := MinInt(ammoNeeded, reserveAmmo);
          ammo := ammo + ammoToReload;
          reserveAmmo := reserveAmmo - ammoToReload;
          isReloading := false;
        }
      }
      if pressed && !isReloading && ammo < MaxAmmo && 0 < reserveAmmo {
        isReloading := true;
        reloadTimer := ReloadTime;
      }
    }

    method HandleRecoil(dt: real)
      modifies this
      ensures State() == RecoilDecay(old(State()), dt)
    {
      if 0.0 < recoil {
        recoil := MaxReal(0.0, recoil - RecoilRecovery * dt);
      }
    }

    method ApplyGravity(dt: real)
      modifies this
      ensures State() == Gravity(old(State()), dt)
    {
      if !isOnGround {
        velocity := velocity.(y := velocity.y + GravityAccel * dt);
      }
      position := position.(y := position.y + velocity.y * dt);
      if position.y <= GroundHeight {
        position := position.(y := GroundHeight);
        velocity := velocity.(y := 0.0);
        isOnGround := true;
      } else {
        isOnGround := false;
      }
    }

    method TakeDamage(amount: int)
      modifies this
      ensures State() == PlayerDamaged(old(State()), amount)
    {
      health := MaxInt(0, health - amount);
    }

    /** `getReloadProgress`: 1 when idle, otherwise the elapsed share of the reload, below 1. */
    function GetReloadProgress(): (p: real)
      reads this
      requires Valid()
      ensures 0.0 <= p <= 1.0
      ensures isReloading <==> p < 1.0
    {
      if isReloading then 1.0 - reloadTimer / ReloadTime else 1.0
    }

    function GetPosition(): Vec3
      reads this
    {
      position
    }
  }
}
