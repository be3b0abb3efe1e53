/**
 * An enemy agent: a three-state AI (idle, chasing, attacking) chosen each
 * tick from the distance to the player, an attack guard with a cooldown
 * timer, health with a terminal dying flag, and respawn.
 *
 * As for the player, pure functions on `EnemyState` say what each operation
 * does, and the class `Enemy` updates the same fields in place.
 */
module FpsEnemy {
  import opened FpsGeometry
  import opened FpsPlayer

  const EnemyMaxHealth: int := 100
  const DetectionRange: real := 30.0
  const AttackRange: real := 3.0
  const EnemySpeed: real := 4.0
  const AttackCooldown: real := 1.5
  /** `isAttacking` reports an attack while the cooldown is above 1.5 - 0.1. */
  const AttackReportWindow: real := 0.1
  /** Spawn coordinates are `random * 40 - 20`. */
  const SpawnSpan: real := 40.0
  const SpawnOffset: real := 20.0
  const SpawnHeight: real := 1.0

  datatype AiState = Idle | Chasing | Attacking

  /** The enemy's fields. */
  datatype EnemyState = EnemyState(
    position: Vec3, health: int, isDying: bool,
    state: AiState, attackTimer: real, hasAttacked: bool)

  /** What every reachable enemy satisfies. */
  ghost predicate EnemyInv(e: EnemyState) {
    && e.position.y == SpawnHeight
    && e.health <= EnemyMaxHealth
    && (e.isDying <==> e.health <= 0)
    && e.attackTimer <= AttackCooldown
  }

  /** A spawn point from two draws of `Math.random()`, each in [0, 1). */
  function SpawnPoint(rx: real, rz: real): (p: Vec3)
    requires 0.0 <= rx < 1.0 && 0.0 <= rz < 1.0
    ensures -SpawnOffset <= p.x < SpawnOffset && -SpawnOffset <= p.z < SpawnOffset
    ensures p.y == SpawnHeight
  {
    Vec3(rx * SpawnSpan - SpawnOffset, SpawnHeight, rz * SpawnSpan - SpawnOffset)
  }

  /** A new enemy: full health, idle, no attack pending, at a random spawn point. */
  function InitialEnemy(rx: real, rz: real): (e: EnemyState)
    requires 0.0 <= rx < 1.0 && 0.0 <= rz < 1.0
    ensures EnemyInv(e)
    ensures e.health == EnemyMaxHealth && !e.isDying && e.state == Idle
    ensures e.attackTimer == 0.0 && !e.hasAttacked
  {
    EnemyState(SpawnPoint(rx, rz), EnemyMaxHealth, false, Idle, 0.0, false)
  }

  /**
   * The AI state for the squared distance `d2` to the player: attacking
   * inside 3, chasing inside 30, idle beyond.
   */
  function ChooseState(d2: real): (st: AiState)
    ensures st == Attacking <==> Within(d2, AttackRange)
    ensures st == Chasing <==> !Within(d2, AttackRange) && Within(d2, DetectionRange)
    ensures st == Idle <==> !Within(d2, DetectionRange)
  {
    if Within(d2, AttackRange) then Attacking
    else if Within(d2, DetectionRange) then Chasing
    else Idle
  }

  /**
   * The state is a function of the distance alone: for a true square root,
   * the choice by squares is the choice by `distanceTo`.
   */
  lemma ChooseStateByDistance(sqrt: real -> real, d2: real)
    requires IsSquareRoot(sqrt) && 0.0 <= d2
    ensures ChooseState(d2) == Attacking <==> sqrt(d2) < AttackRange
    ensures ChooseState(d2) == Chasing <==> AttackRange <= sqrt(d2) < DetectionRange
    ensures ChooseState(d2) == Idle <==> DetectionRange <= sqrt(d2)
  {
    WithinMatchesDistance(sqrt, d2, AttackRange);
    WithinMatchesDistance(sqrt, d2, DetectionRange);
  }

  /** The horizontal direction from `from` towards `target`, normalised. */
  function ChaseDirection(from: Vec3, target: Vec3, sqrt: real -> real): Vec3 {
    Normalize(Sub(target, from).(y := 0.0), sqrt)
  }

  /**
   * `chasePlayer`: step towards the target at 4 units per second, in the
   * horizontal plane. The step is parallel to the horizontal offset to the
   * target and, for a forward tick and a true root, points towards it.
   */
  function Chase(e: EnemyState, target: Vec3, dt: real, sqrt: real -> real): (r: EnemyState)
    ensures r.position.y == e.position.y
    ensures r == e.(position := r.position)
    ensures var m, d := Sub(target, e.position).(y := 0.0), Sub(r.position, e.position);
            && d.x * m.z == d.z * m.x
            && (0.0 <= dt && RootAt(sqrt, LengthSq(m)) ==> 0.0 <= d.x * m.x + d.z * m.z)
  {
    var m := Sub(target, e.position).(y := 0.0);
    var dir := ChaseDirection(e.position, target, sqrt);
    var len := sqrt(LengthSq(m));
    var c := if len == 0.0 then EnemySpeed * dt else 1.0 / len * (EnemySpeed * dt);
    var d := Vec3(dir.x * EnemySpeed * dt, 0.0, dir.z * EnemySpeed * dt);
    assert d.x == m.x * c && d.z == m.z * c;
    assert 0.0 <= dt && RootAt(sqrt, LengthSq(m)) ==> 0.0 <= c;
    ScaledAlong(m, d, c);
    e.(position := e.position.(x := e.position.x + dir.x * EnemySpeed * dt,
                               z := e.position.z + dir.z * EnemySpeed * dt))
  }

  /**
   * When the target is not straight above or below, a chase step covers
   * exactly 4 * dt horizontally (for a true square root).
   */
  lemma ChaseStepLength(e: EnemyState, target: Vec3, dt: real, sqrt: real -> real)
    requires IsSquareRoot(sqrt) && 0.0 < sqrt(LengthSq(Sub(target, e.position).(y := 0.0)))
    ensures HorizontalSpeedSq(Sub(Chase(e, target, dt, sqrt).position, e.position)) == (EnemySpeed * dt) * (EnemySpeed * dt)
  {
    var m := Sub(target, e.position).(y := 0.0);
    var n := Normalize(m, sqrt);
    var r := Chase(e, target, dt, sqrt);
    var d := Sub(r.position, e.position);
    assert d.x == n.x * (EnemySpeed * dt) && d.z == n.z * (EnemySpeed * dt);
    DirectionSpeed(m, sqrt, d, EnemySpeed * dt);
  }

  /** The attack guard: the cooldown is over and this stay in range has not attacked yet. */
  predicate CanAttack(e: EnemyState) {
    e.attackTimer <= 0.0 && !e.hasAttacked
  }

  /** `attackPlayer`: when the guard allows it, attack and start the 1.5 s cooldown. */
  function Attack(e: EnemyState): (r: EnemyState)
    ensures CanAttack(e) ==> r.hasAttacked && r.attackTimer == AttackCooldown
    ensures !CanAttack(e) ==> r == e
    ensures r.hasAttacked
            || (r == e && !e.hasAttacked && 0.0 < e.attackTimer)
    ensures r == e.(hasAttacked := r.hasAttacked, attackTimer := r.attackTimer)
  {
    if CanAttack(e) then e.(hasAttacked := true, attackTimer := AttackCooldown) else e
  }

  /** The cooldown runs down by dt, but only while it is positive. */
  function CoolDown(e: EnemyState, dt: real): (r: EnemyState)
    ensures 0.0 < e.attackTimer ==> r.attackTimer == e.attackTimer - dt
    ensures e.attackTimer <= 0.0 ==> r == e
    ensures 0.0 <= dt ==> r.attackTimer <= e.attackTimer
    ensures r == e.(attackTimer := r.attackTimer)
  {
    if 0.0 < e.attackTimer then e.(attackTimer := e.attackTimer - dt) else e
  }

  /**
   * `update`: a dying enemy is frozen. Otherwise the state is chosen from the
   * distance to `target`; chasing moves (never vertically) and clears the
   * attack flag, idle clears it, attacking runs the attack guard; then the
   * cooldown runs down. Health and the dying flag never change here.
   */
  function EnemyStep(e: EnemyState, dt: real, target: Vec3, sqrt: real -> real): (r: EnemyState)
    ensures e.isDying ==> r == e
    ensures !e.isDying ==> r.state == ChooseState(DistanceSq(e.position, target))
    ensures r.position.y == e.position.y
    ensures r.state != Chasing ==> r.position == e.position
    ensures r.health == e.health && r.isDying == e.isDying
    ensures !e.isDying && r.state != Attacking ==> !r.hasAttacked && r.attackTimer == CoolDown(e, dt).attackTimer
    ensures !e.isDying && r.state == Chasing ==> r.position == Chase(e, target, dt, sqrt).position
    ensures !e.isDying && r.state == Attacking && CanAttack(e) ==>
              r.hasAttacked && r.attackTimer == AttackCooldown - dt
    ensures !e.isDying && r.state == Attacking && !CanAttack(e) ==>
              r.hasAttacked == e.hasAttacked && r.attackTimer == CoolDown(e, dt).attackTimer
    ensures 0.0 <= dt && EnemyInv(e) ==> EnemyInv(r)
  {
    if e.isDying then e
    else
      var st := ChooseState(DistanceSq(e.position, target));
      var e1 := e.(state := st);
      var e2 := match st
                case Chasing => Chase(e1, target, dt, sqrt).(hasAttacked := false)
                case Attacking => Attack(e1)
                case Idle => e1.(hasAttacked := false);
      CoolDown(e2, dt)
  }

  /**
   * `isAttacking`: an attack is reported while the flag is set and the
   * cooldown is still above 1.4, that is during the first 0.1 s after the
   * attack. The dying flag is not consulted.
   */
  predicate ReportsAttack(e: EnemyState): (b: bool)
    ensures b && EnemyInv(e) ==> AttackCooldown - AttackReportWindow < e.attackTimer <= AttackCooldown
  {
    e.hasAttacked && e.attackTimer > AttackCooldown - AttackReportWindow
  }

  /** The tick on which an attack triggers reports it exactly when that tick is shorter than 0.1 s. */
  lemma AttackReportedOnTriggerTick(e: EnemyState, dt: real, target: Vec3, sqrt: real -> real)
    requires !e.isDying && CanAttack(e) && Within(DistanceSq(e.position, target), AttackRange)
    ensures ReportsAttack(EnemyStep(e, dt, target, sqrt)) <==> dt < AttackReportWindow
  {
  }

  /** One tick of the simulation as seen by an enemy: its length and where the player stands. */
  datatype Tick = Tick(dt: real, target: Vec3)

  /** The enemy after a sequence of ticks. */
  function EnemyRun(e: EnemyState, ticks: seq<Tick>, sqrt: real -> real): EnemyState
    decreases |ticks|
  {
    if |ticks| == 0 then e
    else EnemyRun(EnemyStep(e, ticks[0].dt, ticks[0].target, sqrt), ticks[1..], sqrt)
  }

  function TotalTime(ticks: seq<Tick>): real
    decreases |ticks|
  {
    if |ticks| == 0 then 0.0 else ticks[0].dt + TotalTime(ticks[1..])
  }

  /** The player stays within attack range of `p` on every tick, and no tick runs backwards. */
  ghost predicate StaysInRange(p: Vec3, ticks: seq<Tick>) {
    forall i :: 0 <= i < |ticks| ==> 0.0 <= ticks[i].dt && Within(DistanceSq(p, ticks[i].target), AttackRange)
  }

  /**
   * Once an enemy has attacked, it does not attack again for as long as the
   * player stays in range: it does not move, the flag stays set, the
   * cooldown only runs down, and the attack is reported exactly while less
   * than 0.1 s of cooldown has elapsed, never again later in the stay.
   */
  lemma {:induction false} AttacksOncePerStay(e: EnemyState, ticks: seq<Tick>, sqrt: real -> real)
    requires !e.isDying && e.hasAttacked && StaysInRange(e.position, ticks)
    ensures var r := EnemyRun(e, ticks, sqrt);
            && r.hasAttacked && r.position == e.position && !r.isDying
            && r.attackTimer <= e.attackTimer
            && (ReportsAttack(r) <==> e.attackTimer - TotalTime(ticks) > AttackCooldown - AttackReportWindow)
    decreases |ticks|
  {
    if |ticks| == 0 {
    } else {
      var e1 := EnemyStep(e, ticks[0].dt, ticks[0].target, sqrt);
      assert e1.state == Attacking;
      assert StaysInRange(e1.position, ticks[1..]) by {
        forall i | 0 <= i < |ticks[1..]|
          ensures 0.0 <= ticks[1..][i].dt && Within(DistanceSq(e1.position, ticks[1..][i].target), AttackRange)
        {
          assert ticks[1..][i] == ticks[i + 1];
        }
      }
      if 0.0 < e.attackTimer {
        AttacksOncePerStay(e1, ticks[1..], sqrt);
      } else {
        assert e1 == e.(state := Attacking);
        CooledDownStaysPut(e1, ticks[1..], sqrt);
        TotalTimeNonNegative(ticks[1..]);
      }
    }
  }

  /** With the flag set and the cooldown over, an enemy in range keeps doing nothing. */
  lemma {:induction false} CooledDownStaysPut(e: EnemyState, ticks: seq<Tick>, sqrt: real -> real)
    requires !e.isDying && e.hasAttacked && e.attackTimer <= 0.0 && StaysInRange(e.position, ticks)
    ensures EnemyRun(e, ticks, sqrt).attackTimer == e.attackTimer
    ensures EnemyRun(e, ticks, sqrt).hasAttacked && EnemyRun(e, ticks, sqrt).position == e.position
    ensures !EnemyRun(e, ticks, sqrt).isDying
    decreases |ticks|
  {
    if |ticks| != 0 {
      var e1 := EnemyStep(e, ticks[0].dt, ticks[0].target, sqrt);
      assert StaysInRange(e1.position, ticks[1..]) by {
        forall i | 0 <= i < |ticks[1..]|
          ensures 0.0 <= ticks[1..][i].dt && Within(DistanceSq(e1.position, ticks[1..][i].target), AttackRange)
        {
          assert ticks[1..][i] == ticks[i + 1];
        }
      }
      CooledDownStaysPut(e1, ticks[1..], sqrt);
    }
  }

  lemma {:induction false} TotalTimeNonNegative(ticks: seq<Tick>)
    requires forall i :: 0 <= i < |ticks| ==> 0.0 <= ticks[i].dt
    ensures 0.0 <= TotalTime(ticks)
    decreases |ticks|
  {
    if |ticks| != 0 {
      assert forall i :: 0 <= i < |ticks[1..]| ==> ticks[1..][i] == ticks[i + 1];
      TotalTimeNonNegative(ticks[1..]);
    }
  }

  /**
   * `takeDamage`: ignored while dying; otherwise health drops by exactly
   * `amount` (it may go below 0) and the enemy starts dying once health is
   * at most 0.
   */
  function EnemyDamaged(e: EnemyState, amount: int): (r: EnemyState)
    ensures e.isDying ==> r == e
    ensures !e.isDying ==> r.health == e.health - amount && (r.isDying <==> r.health <= 0)
    ensures r == e.(health := r.health, isDying := r.isDying)
    ensures 0 <= amount && EnemyInv(e) ==> EnemyInv(r)
  {
    if e.isDying then e
    else
      var e1 := e.(health := e.health - amount);
      if e1.health <= 0 then Dying(e1) else e1
  }

  /** `die`: set the terminal flag. */
  function Dying(e: EnemyState): (r: EnemyState)
    ensures r.isDying && r == e.(isDying := true)
    ensures e.health <= 0 && EnemyInv(e.(isDying := false)) ==> EnemyInv(r)
  {
    e.(isDying := true)
  }

  /**
   * `respawn`: full health, alive again, at a fresh spawn point. The AI
   * state, the cooldown and the attack flag are left as they were.
   */
  function Respawned(e: EnemyState, rx: real, rz: real): (r: EnemyState)
    requires 0.0 <= rx < 1.0 && 0.0 <= rz < 1.0
    ensures r.health == EnemyMaxHealth && !r.isDying
    ensures r.position.y == SpawnHeight
    ensures -SpawnOffset <= r.position.x < SpawnOffset && -SpawnOffset <= r.position.z < SpawnOffset
    ensures r.state == e.state && r.attackTimer == e.attackTimer && r.hasAttacked == e.hasAttacked
    ensures EnemyInv(e) ==> EnemyInv(r)
  {
    e.(health := EnemyMaxHealth, isDying := false, position := SpawnPoint(rx, rz))
  }

  /**
   * The enemy object. It holds the same state as `EnemyState` and reads the
   * player's position.
   */
  class Enemy {
    const player: Player
    var position: Vec3
    var health: int
    var isDying: bool
    var state: AiState
    var attackTimer: real
    var hasAttacked: bool

    function State(): EnemyState
      reads this
    {
      EnemyState(position, health, isDying, state, attackTimer, hasAttacked)
    }

    ghost predicate Valid()
      reads this
    {
      EnemyInv(State())
    }

    /** A new enemy at the spawn point drawn as (rx, rz). */
    constructor (player: Player, rx: real, rz: real)
      requires 0.0 <= rx < 1.0 && 0.0 <= rz < 1.0
      ensures this.player == player
      ensures State() == InitialEnemy(rx, rz) && Valid()
    {
      this.player := player;
      position := Vec3(rx * SpawnSpan - SpawnOffset, SpawnHeight, rz * SpawnSpan - SpawnOffset);
      health := EnemyMaxHealth;
      isDying := false;
      state := Idle;
      attackTimer := 0.0;
      hasAttacked := false;
    }

    method Update(dt: real, sqrt: real -> real)
      modifies this
      ensures State() == EnemyStep(old(State()), dt, player.position, sqrt)
      ensures 0.0 <= dt && old(Valid()) ==> Valid()
    {
      if isDying {
        return;
      }
      var playerPos := player.GetPosition();
      var distance2 := DistanceSq(position, playerPos);
      if Within(distance2, AttackRange) {
        state := Attacking;
      } else if Within(distance2, DetectionRange) {
        state := Chasing;
      } else {
        state := Idle;
      }
      match state {
        case Chasing =>
          ChasePlayer(dt, playerPos, sqrt);
          hasAttacked := false;
        case Attacking =>
          AttackPlayer();
        case Idle =>
          hasAttacked := false;
      }
      if 0.0 < attackTimer {
        attackTimer := attackTimer - dt;
      }
    }

    method ChasePlayer(dt: real, playerPos: Vec3, sqrt: real -> real)
      modifies this
      ensures State() == Chase(old(State()), playerPos, dt, sqrt)
    {
      var direction := Sub(playerPos, position);
      direction := direction.(y := 0.0);
      direction := Normalize(direction, sqrt);
      position := position.(x := position.x + direction.x * EnemySpeed * dt);
      position := position.(z := position.z + direction.z * EnemySpeed * dt);
    }

    method AttackPlayer()
      modifies this
      ensures State() == Attack(old(State()))
    {
      if attackTimer <= 0.0 && !hasAttacked {
        hasAttacked := true;
        attackTimer := AttackCooldown;
      }
    }

    /** `isAttacking`: the attack report, which does not consult the dying flag. */
    predicate IsAttacking(): (b: bool)
      reads this
      ensures b <==> ReportsAttack(State())
      ensures b && Valid() ==> AttackCooldown - AttackReportWindow < attackTimer <= AttackCooldown
    {
      ReportsAttack(State())
    }

    method TakeDamage(amount: int)
      modifies this
      ensures State() == EnemyDamaged(old(State()), amount)
      ensures 0 <= amount && old(Valid()) ==> Valid()
    {
      if isDying {
        return;
      }
      health := health - amount;
      if health <= 0 {
        Die();
      }
    }

    method Die()
      modifies this
      ensures State() == Dying(old(State()))
    {
      isDying := true;
    }

    /** `respawn`, with the spawn point drawn as (rx, rz). */
    method Respawn(rx: real, rz: real)
      requires 0.0 <= rx < 1.0 && 0.0 <= rz < 1.0
      modifies this
      ensures State() == Respawned(old(State()), rx, rz)
      ensures old(Valid()) ==> Valid()
    {
      health := EnemyMaxHealth;
      isDying := false;
      position := Vec3(rx * SpawnSpan - SpawnOffset, SpawnHeight, rz * SpawnSpan - SpawnOffset);
    }

    /** `isDead`: the dying flag, set exactly when health has reached 0 or below. */
    predicate IsDead(): (b: bool)
      reads this
      ensures Valid() ==> (b <==> health <= 0)
    {
      isDying
    }

    function GetPosition(): Vec3
      reads this
    {
      position
    }
  }
}
