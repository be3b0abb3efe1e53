/**
 * The game's per-tick combat and scoring loop: the player updates first,
 * then every enemy from the last index down to the first updates, is
 * checked against the player's shot (25 damage, and a kill worth 100 points
 * when it is dying afterwards), and hurts the player by 10 if it reports an
 * attack.
 */
module FpsGame {
  import opened Optional
  import opened FpsGeometry
  import opened FpsWorld
  import opened FpsPlayer
  import opened FpsEnemy

  const EnemyCount: nat := 5
  const HitRadius: real := 1.5
  const ShotDamage: int := 25
  const KillScore: int := 100
  const AttackDamage: int := 10

  /** The simulation's state: the player, the enemies in list order, score and kills. */
  datatype GameState = GameState(player: PlayerState, enemies: seq<EnemyState>, score: int, kills: int)

  ghost predicate GameInv(g: GameState) {
    && Inv(g.player)
    && (forall j :: 0 <= j < |g.enemies| ==> EnemyInv(g.enemies[j]))
    && g.score == KillScore * g.kills
    && 0 <= g.kills
  }

  /** Enemy `j` after its own update, chasing or attacking the player where `g` has it. */
  function Stepped(g: GameState, j: int, dt: real, sqrt: real -> real): EnemyState
    requires 0 <= j < |g.enemies|
  {
    EnemyStep(g.enemies[j], dt, g.player.position, sqrt)
  }

  /** The player's shot hits enemy `j` once that enemy has updated. */
  predicate Hits(g: GameState, j: int, dt: real, now: real, sqrt: real -> real)
    requires 0 <= j < |g.enemies|
  {
    HitTest(g.player, Stepped(g, j, dt, sqrt).position, HitRadius, now).0
  }

  /** What one turn of the enemy loop does to the player and one enemy. */
  datatype Turn = Turn(player: PlayerState, enemy: EnemyState, killed: bool)

  /**
   * One enemy's turn: update the enemy against the player's position, test
   * the shot against it, damage it and count a kill if it is dying
   * afterwards, then let it hurt the player if it reports an attack.
   */
  function EnemyTurn(p: PlayerState, e: EnemyState, dt: real, now: real, sqrt: real -> real): (t: Turn)
    ensures t.player.health == p.health || t.player.health == MaxInt(0, p.health - AttackDamage)
    ensures 0 <= p.health ==> 0 <= t.player.health <= p.health
    ensures t.enemy.health == e.health || (!e.isDying && t.enemy.health == e.health - ShotDamage)
    ensures t.killed ==> t.enemy.isDying && p.lastShotDirection.Some? && t.player.lastShotDirection.None?
    ensures t.player == p.(health := t.player.health, lastShotDirection := t.player.lastShotDirection)
  {
    var e1 := EnemyStep(e, dt, p.position, sqrt);
    var shot := HitTest(p, e1.position, HitRadius, now);
    var p1 := p.(lastShotDirection := shot.1);
    var e2 := if shot.0 then EnemyDamaged(e1, ShotDamage) else e1;
    var p2 := if ReportsAttack(e2) then PlayerDamaged(p1, AttackDamage) else p1;
    Turn(p2, e2, shot.0 && e2.isDying)
  }

  /** The body of the enemy loop for index `i`. */
  function ResolveEnemy(g: GameState, i: int, dt: real, now: real, sqrt: real -> real): (r: GameState)
    requires 0 <= i < |g.enemies|
    ensures |r.enemies| == |g.enemies|
  {
    var t := EnemyTurn(g.player, g.enemies[i], dt, now, sqrt);
    GameState(t.player, g.enemies[i := t.enemy],
              if t.killed then g.score + KillScore else g.score,
              if t.killed then g.kills + 1 else g.kills)
  }

  /**
   * The enemy's side of a turn: it is updated, then damaged if the shot hits
   * it; a kill is counted exactly when the shot hits and the enemy is dying
   * afterwards.
   */
  lemma TurnEnemy(p: PlayerState, e: EnemyState, dt: real, now: real, sqrt: real -> real)
    ensures var t := EnemyTurn(p, e, dt, now, sqrt);
            var e1 := EnemyStep(e, dt, p.position, sqrt);
            var hit := HitTest(p, e1.position, HitRadius, now).0;
            && (hit ==> t.enemy == EnemyDamaged(e1, ShotDamage))
            && (!hit ==> t.enemy == e1)
            && (t.killed <==> hit && t.enemy.isDying)
  {
  }

  /** A hit consumes the shot record, and a turn never creates one. */
  lemma TurnShot(p: PlayerState, e: EnemyState, dt: real, now: real, sqrt: real -> real)
    ensures var t := EnemyTurn(p, e, dt, now, sqrt);
            var hit := HitTest(p, EnemyStep(e, dt, p.position, sqrt).position, HitRadius, now).0;
            && (hit ==> p.lastShotDirection.Some? && t.player.lastShotDirection.None?)
            && (t.player.lastShotDirection.Some? ==> p.lastShotDirection.Some?)
  {
  }

  /**
   * The player's side of a turn: 10 health lost, never below 0, when the
   * enemy reports an attack after its update and the shot; nothing else
   * changes but the shot record.
   */
  lemma TurnPlayer(p: PlayerState, e: EnemyState, dt: real, now: real, sqrt: real -> real)
    ensures var t := EnemyTurn(p, e, dt, now, sqrt);
            && (ReportsAttack(t.enemy) ==> t.player.health == MaxInt(0, p.health - AttackDamage))
            && (!ReportsAttack(t.enemy) ==> t.player.health == p.health)
            && t.player == p.(health := t.player.health, lastShotDirection := t.player.lastShotDirection)
  {
  }

  /** A turn keeps both the player's and the enemy's invariant. */
  lemma TurnKeepsInvariants(p: PlayerState, e: EnemyState, dt: real, now: real, sqrt: real -> real)
    requires 0.0 <= dt && Inv(p) && EnemyInv(e)
    ensures Inv(EnemyTurn(p, e, dt, now, sqrt).player) && EnemyInv(EnemyTurn(p, e, dt, now, sqrt).enemy)
  {
  }

  /** Process the enemies at indices k - 1 down to 0, in that order. */
  function ProcessEnemies(g: GameState, k: nat, dt: real, now: real, sqrt: real -> real): (r: GameState)
    requires k <= |g.enemies|
    ensures |r.enemies| == |g.enemies|
    decreases k
  {
    if k == 0 then g
    else ProcessEnemies(ResolveEnemy(g, k - 1, dt, now, sqrt), k - 1, dt, now, sqrt)
  }

  /** `Game.update`: the player's tick, then every enemy from the last to the first. */
  function GameTick(g: GameState, input: Input, view: Vec3, dt: real, now: real, colliders: seq<Aabb>, sqrt: real -> real): (r: GameState)
    requires 0.0 <= dt
    ensures |r.enemies| == |g.enemies|
  {
    ProcessEnemies(g.(player := Step(g.player, input, view, dt, now, colliders, sqrt)), |g.enemies|, dt, now, sqrt)
  }

  /** How many of the enemies report an attack. */
  function CountReports(es: seq<EnemyState>): (n: nat)
    ensures n <= |es|
  {
    if |es| == 0 then 0
    else CountReports(es[..|es| - 1]) + (if ReportsAttack(es[|es| - 1]) then 1 else 0)
  }

  /**
   * The enemy loop touches only the indices it visits; every visited enemy
   * ends up updated against the player's position, and possibly shot; and
   * the player keeps everything but health and the shot record.
   */
  lemma {:induction false} ProcessShape(g: GameState, k: nat, dt: real, now: real, sqrt: real -> real)
    requires k <= |g.enemies|
    ensures var r := ProcessEnemies(g, k, dt, now, sqrt);
            && (forall j :: k <= j < |g.enemies| ==> r.enemies[j] == g.enemies[j])
            && (forall j :: 0 <= j < k ==>
                  r.enemies[j] == Stepped(g, j, dt, sqrt)
                  || r.enemies[j] == EnemyDamaged(Stepped(g, j, dt, sqrt), ShotDamage))
            && r.player == g.player.(health := r.player.health, lastShotDirection := r.player.lastShotDirection)
    decreases k
  {
    hide EnemyTurn, EnemyStep, HitTest;
    if k != 0 {
      var g1 := ResolveEnemy(g, k - 1, dt, now, sqrt);
      TurnEnemy(g.player, g.enemies[k - 1], dt, now, sqrt);
      TurnPlayer(g.player, g.enemies[k - 1], dt, now, sqrt);
      ProcessShape(g1, k - 1, dt, now, sqrt);
      assert forall j :: 0 <= j < k - 1 ==> Stepped(g1, j, dt, sqrt) == Stepped(g, j, dt, sqrt);
    }
  }

  /** With no shot on record, no enemy is hit, no kill is counted and no record appears. */
  lemma {:induction false} NoShotNoHit(g: GameState, k: nat, dt: real, now: real, sqrt: real -> real)
    requires k <= |g.enemies| && g.player.lastShotDirection.None?
    ensures var r := ProcessEnemies(g, k, dt, now, sqrt);
            && r.kills == g.kills && r.score == g.score
            && r.player.lastShotDirection.None?
            && (forall j :: 0 <= j < k ==> r.enemies[j] == Stepped(g, j, dt, sqrt))
    decreases k
  {
    hide EnemyTurn, EnemyStep, HitTest;
    if k != 0 {
      var g1 := ResolveEnemy(g, k - 1, dt, now, sqrt);
      TurnEnemy(g.player, g.enemies[k - 1], dt, now, sqrt);
      TurnShot(g.player, g.enemies[k - 1], dt, now, sqrt);
      TurnPlayer(g.player, g.enemies[k - 1], dt, now, sqrt);
      NoShotNoHit(g1, k - 1, dt, now, sqrt);
      ProcessShape(g1, k - 1, dt, now, sqrt);
      assert forall j :: 0 <= j < k - 1 ==> Stepped(g1, j, dt, sqrt) == Stepped(g, j, dt, sqrt);
    }
  }

  /** The score moves with the kills, 100 points per kill. */
  lemma {:induction false} ScoreFollowsKills(g: GameState, k: nat, dt: real, now: real, sqrt: real -> real)
    requires k <= |g.enemies|
    ensures var r := ProcessEnemies(g, k, dt, now, sqrt);
            r.score - g.score == KillScore * (r.kills - g.kills)
    decreases k
  {
    hide EnemyTurn;
    if k != 0 {
      ScoreFollowsKills(ResolveEnemy(g, k - 1, dt, now, sqrt), k - 1, dt, now, sqrt);
    }
  }

  /** A shot counts at most one kill per tick, and a kill consumes the shot record. */
  lemma {:induction false} OneKillPerTick(g: GameState, k: nat, dt: real, now: real, sqrt: real -> real)
    requires k <= |g.enemies|
    ensures var r := ProcessEnemies(g, k, dt, now, sqrt);
            && g.kills <= r.kills <= g.kills + 1
            && (g.kills < r.kills ==> g.player.lastShotDirection.Some? && r.player.lastShotDirection.None?)
    ensures var r, v := ProcessEnemies(g, k, dt, now, sqrt), ShotVictim(g, k, dt, now, sqrt);
            r.kills == g.kills + (if v.Some? && r.enemies[v.value].isDying then 1 else 0)
    decreases k
  {
    hide EnemyTurn, EnemyStep, HitTest;
    if k != 0 {
      var g1 := ResolveEnemy(g, k - 1, dt, now, sqrt);
      TurnEnemy(g.player, g.enemies[k - 1], dt, now, sqrt);
      TurnShot(g.player, g.enemies[k - 1], dt, now, sqrt);
      if Hits(g, k - 1, dt, now, sqrt) {
        NoShotNoHit(g1, k - 1, dt, now, sqrt);
        ProcessLeavesOne(g1, k - 1, k - 1, dt, now, sqrt);
      } else {
        OneKillPerTick(g1, k - 1, dt, now, sqrt);
      }
    }
  }

  /**
   * The enemy the shot damages in the loop over indices k - 1 down to 0:
   * the first one visited that the shot hits, if any.
   */
  ghost function ShotVictim(g: GameState, k: nat, dt: real, now: real, sqrt: real -> real): (v: Option<nat>)
    requires k <= |g.enemies|
    ensures v.Some? ==> v.value < k
    decreases k
  {
    if k == 0 then None
    else if Hits(g, k - 1, dt, now, sqrt) then Some(k - 1)
    else ShotVictim(ResolveEnemy(g, k - 1, dt, now, sqrt), k - 1, dt, now, sqrt)
  }

  /**
   * The victim, described without the loop: the enemy of highest index below
   * `k` that the shot as recorded at the start of the loop hits; no victim
   * when the shot hits none of them.
   */
  lemma {:induction false} ShotVictimIsLastHit(g: GameState, k: nat, dt: real, now: real, sqrt: real -> real)
    requires k <= |g.enemies|
    ensures var v := ShotVictim(g, k, dt, now, sqrt);
            && (v.Some? ==> Hits(g, v.value, dt, now, sqrt) && forall j :: v.value < j < k ==> !Hits(g, j, dt, now, sqrt))
            && (v.None? ==> forall j :: 0 <= j < k ==> !Hits(g, j, dt, now, sqrt))
    decreases k
  {
    if k != 0 && !Hits(g, k - 1, dt, now, sqrt) {
      var g1 := ResolveEnemy(g, k - 1, dt, now, sqrt);
      ShotVictimIsLastHit(g1, k - 1, dt, now, sqrt);
      forall j | 0 <= j < k - 1
        ensures Hits(g1, j, dt, now, sqrt) == Hits(g, j, dt, now, sqrt)
      {
        MissKeepsHits(g, k - 1, j, dt, now, sqrt);
      }
    }
  }

  /** A turn whose enemy the shot misses leaves every other enemy's hit test as it was. */
  lemma MissKeepsHits(g: GameState, i: int, j: int, dt: real, now: real, sqrt: real -> real)
    requires 0 <= i < |g.enemies| && 0 <= j < |g.enemies| && i != j && !Hits(g, i, dt, now, sqrt)
    ensures Hits(ResolveEnemy(g, i, dt, now, sqrt), j, dt, now, sqrt) == Hits(g, j, dt, now, sqrt)
  {
    var g1 := ResolveEnemy(g, i, dt, now, sqrt);
    assert Stepped(g1, j, dt, sqrt) == Stepped(g, j, dt, sqrt);
    TurnShot(g.player, g.enemies[i], dt, now, sqrt);
    TurnPlayer(g.player, g.enemies[i], dt, now, sqrt);
  }

  /**
   * A shot damages at most one enemy per tick: every enemy but the victim
   * ends the loop exactly as its own update left it, and a victim exists
   * only when there was a shot on record, which it consumed.
   */
  lemma {:induction false} ShotHitsOneEnemyPerTick(g: GameState, k: nat, dt: real, now: real, sqrt: real -> real)
    requires k <= |g.enemies|
    ensures var r, v := ProcessEnemies(g, k, dt, now, sqrt), ShotVictim(g, k, dt, now, sqrt);
            && (forall j :: 0 <= j < k && v != Some(j) ==> r.enemies[j] == Stepped(g, j, dt, sqrt))
            && (v.Some? ==> r.enemies[v.value] == EnemyDamaged(Stepped(g, v.value, dt, sqrt), ShotDamage))
            && (v.Some? ==> g.player.lastShotDirection.Some? && r.player.lastShotDirection.None?)
    decreases k
  {
    hide EnemyTurn, EnemyStep, HitTest;
    if k != 0 {
      var g1 := ResolveEnemy(g, k - 1, dt, now, sqrt);
      var r := ProcessEnemies(g1, k - 1, dt, now, sqrt);
      assert ProcessEnemies(g, k, dt, now, sqrt) == r;
      TurnEnemy(g.player, g.enemies[k - 1], dt, now, sqrt);
      TurnShot(g.player, g.enemies[k - 1], dt, now, sqrt);
      TurnPlayer(g.player, g.enemies[k - 1], dt, now, sqrt);
      ProcessLeavesOne(g1, k - 1, k - 1, dt, now, sqrt);
      assert forall j :: 0 <= j < k - 1 ==> Stepped(g1, j, dt, sqrt) == Stepped(g, j, dt, sqrt);
      if Hits(g, k - 1, dt, now, sqrt) {
        NoShotNoHit(g1, k - 1, dt, now, sqrt);
      } else {
        ShotHitsOneEnemyPerTick(g1, k - 1, dt, now, sqrt);
      }
    }
  }

  /**
   * Every enemy reporting an attack after its turn costs the player 10
   * health, and health never drops below 0.
   */
  lemma {:induction false} AttacksHurtPlayer(g: GameState, k: nat, dt: real, now: real, sqrt: real -> real)
    requires k <= |g.enemies| && 0 <= g.player.health
    ensures var r := ProcessEnemies(g, k, dt, now, sqrt);
            r.player.health == MaxInt(0, g.player.health - AttackDamage * CountReports(r.enemies[..k]))
    decreases k
  {
    hide EnemyTurn, EnemyStep, HitTest;
    if k != 0 {
      var g1 := ResolveEnemy(g, k - 1, dt, now, sqrt);
      var r := ProcessEnemies(g1, k - 1, dt, now, sqrt);
      assert ProcessEnemies(g, k, dt, now, sqrt) == r;
      TurnPlayer(g.player, g.enemies[k - 1], dt, now, sqrt);
      AttacksHurtPlayer(g1, k - 1, dt, now, sqrt);
      ProcessLeavesOne(g1, k - 1, k - 1, dt, now, sqrt);
      var reports := ReportsAttack(r.enemies[k - 1]);
      assert g1.player.health == if reports then MaxInt(0, g.player.health - AttackDamage) else g.player.health;
      CountReportsStep(r.enemies, k);
      HealthStep(g.player.health, g1.player.health, r.player.health, reports, CountReports(r.enemies[..k - 1]));
    }
  }

  /** The enemy loop leaves index `j`, which it has not reached, as it was. */
  lemma {:induction false} ProcessLeavesOne(g: GameState, k: nat, j: int, dt: real, now: real, sqrt: real -> real)
    requires k <= j < |g.enemies|
    ensures ProcessEnemies(g, k, dt, now, sqrt).enemies[j] == g.enemies[j]
    decreases k
  {
    hide EnemyTurn;
    if k != 0 {
      ProcessLeavesOne(ResolveEnemy(g, k - 1, dt, now, sqrt), k - 1, j, dt, now, sqrt);
    }
  }

  /** Counting the first `k` reports adds the `k`-th enemy to the first `k - 1`. */
  lemma CountReportsStep(es: seq<EnemyState>, k: int)
    requires 0 < k <= |es|
    ensures CountReports(es[..k]) == CountReports(es[..k - 1]) + if ReportsAttack(es[k - 1]) then 1 else 0
  {
    assert es[..k][..k - 1] == es[..k - 1];
  }

  /**
   * Losing 10 health (clamped at 0) on a report and then 10 per further
   * report, clamped again, is losing 10 per report clamped once.
   */
  lemma HealthStep(h: int, h1: int, hr: int, reports: bool, c: nat)
    requires 0 <= h
    requires h1 == if reports then MaxInt(0, h - AttackDamage) else h
    requires hr == MaxInt(0, h1 - AttackDamage * c)
    ensures hr == MaxInt(0, h - AttackDamage * (c + if reports then 1 else 0))
  {
  }

  /** The enemy loop keeps the game invariant, in particular score = 100 * kills. */
  lemma {:induction false} ProcessKeepsInvariant(g: GameState, k: nat, dt: real, now: real, sqrt: real -> real)
    requires k <= |g.enemies| && 0.0 <= dt && GameInv(g)
    ensures GameInv(ProcessEnemies(g, k, dt, now, sqrt))
    decreases k
  {
    hide EnemyTurn, EnemyStep, HitTest;
    if k != 0 {
      TurnKeepsInvariants(g.player, g.enemies[k - 1], dt, now, sqrt);
      ProcessKeepsInvariant(ResolveEnemy(g, k - 1, dt, now, sqrt), k - 1, dt, now, sqrt);
    }
  }


  /** A whole tick keeps the invariant: the score stays 100 per kill, and kills grow by at most one. */
  lemma TickKeepsInvariant(g: GameState, input: Input, view: Vec3, dt: real, now: real, colliders: seq<Aabb>, sqrt: real -> real)
    requires 0.0 <= dt && GameInv(g)
    ensures var r := GameTick(g, input, view, dt, now, colliders, sqrt);
            GameInv(r) && g.kills <= r.kills <= g.kills + 1
  {
    hide ProcessEnemies, Step;
    var g0 := g.(player := Step(g.player, input, view, dt, now, colliders, sqrt));
    ProcessKeepsInvariant(g0, |g.enemies|, dt, now, sqrt);
    OneKillPerTick(g0, |g.enemies|, dt, now, sqrt);
  }

  /**
   * The player moves before any enemy: every enemy ends the tick updated
   * against the player's new position, and possibly shot.
   */
  lemma PlayerMovesFirst(g: GameState, input: Input, view: Vec3, dt: real, now: real, colliders: seq<Aabb>, sqrt: real -> real)
    requires 0.0 <= dt
    ensures var r := GameTick(g, input, view, dt, now, colliders, sqrt);
            var p := Step(g.player, input, view, dt, now, colliders, sqrt);
            forall j :: 0 <= j < |g.enemies| ==>
              var e := EnemyStep(g.enemies[j], dt, p.position, sqrt);
              r.enemies[j] == e || r.enemies[j] == EnemyDamaged(e, ShotDamage)
  {
    hide ProcessEnemies, Step;
    var g0 := g.(player := Step(g.player, input, view, dt, now, colliders, sqrt));
    ProcessShape(g0, |g.enemies|, dt, now, sqrt);
  }

  /** Over a tick the player loses 10 health per enemy reporting an attack, never dropping below 0. */
  lemma TickDamage(g: GameState, input: Input, view: Vec3, dt: real, now: real, colliders: seq<Aabb>, sqrt: real -> real)
    requires 0.0 <= dt && 0 <= g.player.health
    ensures var r := GameTick(g, input, view, dt, now, colliders, sqrt);
            r.player.health == MaxInt(0, g.player.health - AttackDamage * CountReports(r.enemies))
  {
    hide ProcessEnemies, Step;
    var g0 := g.(player := Step(g.player, input, view, dt, now, colliders, sqrt));
    var n := |g.enemies|;
    AttacksHurtPlayer(g0, n, dt, now, sqrt);
    var r := ProcessEnemies(g0, n, dt, now, sqrt);
    assert r.enemies[..n] == r.enemies;
  }

  /**
   * A hit on an enemy that is already dying still counts a kill and 100
   * points, although the damage itself is ignored.
   */
  lemma KillCountedOnDyingEnemy(g: GameState, i: int, dt: real, now: real, sqrt: real -> real)
    requires 0 <= i < |g.enemies| && g.enemies[i].isDying
    requires HitTest(g.player, g.enemies[i].position, HitRadius, now).0
    ensures var r := ResolveEnemy(g, i, dt, now, sqrt);
            r.kills == g.kills + 1 && r.score == g.score + KillScore && r.enemies[i] == g.enemies[i]
  {
  }

  /**
   * An enemy killed by the shot on a tick on which it reports an attack
   * stays frozen with the attack reported, and from then on hurts the player
   * on every tick until it respawns.
   */
  lemma KilledAttackerKeepsHurting(g: GameState, i: int, dt: real, now: real, sqrt: real -> real)
    requires 0 <= i < |g.enemies|
    requires var e1 := Stepped(g, i, dt, sqrt);
             !e1.isDying && ReportsAttack(e1) && e1.health <= ShotDamage && Hits(g, i, dt, now, sqrt)
    ensures var r := ResolveEnemy(g, i, dt, now, sqrt);
            r.enemies[i].isDying && ReportsAttack(r.enemies[i]) && r.kills == g.kills + 1
  {
  }

  /**
   * A dying enemy whose attack is still reported is frozen by its turn and
   * hurts the player again, so it does so on every tick until it respawns.
   */
  lemma DyingAttackerHurtsEveryTick(g: GameState, i: int, dt: real, now: real, sqrt: real -> real)
    requires 0 <= i < |g.enemies| && g.enemies[i].isDying && ReportsAttack(g.enemies[i])
    ensures var r := ResolveEnemy(g, i, dt, now, sqrt);
            && r.enemies[i] == g.enemies[i]
            && r.player.health == MaxInt(0, g.player.health - AttackDamage)
  {
  }

  /** Spawning from one more draw appends one more enemy. */
  lemma InitialEnemiesStep(ds: seq<(real, real)>, j: int)
    requires Draws(ds) && 0 <= j < |ds|
    ensures InitialEnemies(ds[..j + 1]) == InitialEnemies(ds[..j]) + [InitialEnemy(ds[j].0, ds[j].1)]
  {
    assert ds[..j + 1][..j] == ds[..j];
  }

  lemma AppendAssoc<T>(a: seq<T>, b: seq<T>, c: seq<T>)
    ensures (a + b) + c == a + (b + c)
  {
  }

  /** Draws of `Math.random()` for spawn points: each coordinate in [0, 1). */
  predicate Draws(ds: seq<(real, real)>) {
    forall j :: 0 <= j < |ds| ==> 0.0 <= ds[j].0 < 1.0 && 0.0 <= ds[j].1 < 1.0
  }

  /** The enemies spawned from a list of draws, in order. */
  function InitialEnemies(ds: seq<(real, real)>): (es: seq<EnemyState>)
    requires Draws(ds)
    ensures |es| == |ds|
    ensures forall j :: 0 <= j < |ds| ==> es[j] == InitialEnemy(ds[j].0, ds[j].1)
  {
    if |ds| == 0 then [] else InitialEnemies(ds[..|ds| - 1]) + [InitialEnemy(ds[|ds| - 1].0, ds[|ds| - 1].1)]
  }

  /** A new game: a fresh player, one enemy per draw, no score and no kills. */
  function InitialGame(ds: seq<(real, real)>): (g: GameState)
    requires Draws(ds)
    ensures GameInv(g) && |g.enemies| == |ds|
    ensures forall j :: 0 <= j < |ds| ==> g.enemies[j].health == EnemyMaxHealth && !g.enemies[j].isDying
    ensures g.player.health == MaxHealth && g.score == 0 && g.kills == 0
    ensures g.player == InitialPlayer() && g.enemies == InitialEnemies(ds)
  {
    GameState(InitialPlayer(), InitialEnemies(ds), 0, 0)
  }

  /** The states of a list of enemy objects, in list order. */
  function StatesOf(es: seq<Enemy>): (r: seq<EnemyState>)
    reads set e | e in es
    ensures |r| == |es|
    ensures forall j :: 0 <= j < |es| ==> r[j] == es[j].State()
  {
    if |es| == 0 then [] else StatesOf(es[..|es| - 1]) + [es[|es| - 1].State()]
  }

  /** Two lists that agree everywhere but at `i` differ by an update at `i`. */
  lemma OneChanged(before: seq<EnemyState>, after: seq<EnemyState>, i: int)
    requires |before| == |after| && 0 <= i < |before|
    requires forall j :: 0 <= j < |before| && j != i ==> after[j] == before[j]
    ensures after == before[i := after[i]]
  {
  }

  lemma PointwiseEqual(a: seq<EnemyState>, b: seq<EnemyState>)
    requires |a| == |b| && forall j :: 0 <= j < |a| ==> a[j] == b[j]
    ensures a == b
  {
  }

  /** The game object: the world, the player, the list of enemies, score and kills. */
  class Game {
    const world: World
    const player: Player
    var enemies: seq<Enemy>
    var score: int
    var kills: int

    function Snapshot(): GameState
      reads this, player, set e | e in enemies
    {
      GameState(player.State(), StatesOf(enemies), score, kills)
    }

    /** Every enemy is its own object and chases this game's player. */
    ghost predicate WellLinked()
      reads this, player, set e | e in enemies
    {
      && player.world == world
      && (forall j :: 0 <= j < |enemies| ==> enemies[j].player == player)
      && (forall j, k :: 0 <= j < k < |enemies| ==> enemies[j] != enemies[k])
    }

    ghost predicate Valid()
      reads this, player, set e | e in enemies
    {
      WellLinked() && GameInv(Snapshot())
    }

    /**
     * A new game: the level, a player, and five enemies whose spawn points
     * are drawn as the pairs in `draws`; score and kills start at 0.
     */
    constructor (draws: seq<(real, real)>)
      requires |draws| == EnemyCount && Draws(draws)
      ensures Valid()
      ensures world.colliders == LevelColliders()
      ensures Snapshot() == InitialGame(draws)
    {
      var w := new World();
      world := w;
      player := new Player(w);
      enemies := [];
      score := 0;
      kills := 0;
      new;
      SpawnEnemies(draws);
      assert Snapshot() == InitialGame(draws);
    }

    /** `spawnEnemies`: append one new enemy per draw, spawned at that draw. */
    method SpawnEnemies(draws: seq<(real, real)>)
      requires WellLinked() && Draws(draws)
      modifies this
      ensures WellLinked()
      ensures StatesOf(enemies) == old(StatesOf(enemies)) + InitialEnemies(draws)
      ensures score == old(score) && kills == old(kills)
    {
      for j := 0 to |draws|
        invariant WellLinked()
        invariant StatesOf(enemies) == old(StatesOf(enemies)) + InitialEnemies(draws[..j])
        invariant score == old(score) && kills == old(kills)
      {
        ghost var before := StatesOf(enemies);
        var _ := AddEnemy(draws[j].0, draws[j].1);
        InitialEnemiesStep(draws, j);
        AppendAssoc(old(StatesOf(enemies)), InitialEnemies(draws[..j]), [InitialEnemy(draws[j].0, draws[j].1)]);
      }
      assert draws[..|draws|] == draws;
    }

    /** One step of `spawnEnemies`: a new enemy at the end of the list. */
    method AddEnemy(rx: real, rz: real) returns (enemy: Enemy)
      requires WellLinked()
      requires 0.0 <= rx < 1.0 && 0.0 <= rz < 1.0
      modifies this
      ensures WellLinked()
      ensures fresh(enemy) && enemies == old(enemies) + [enemy]
      ensures StatesOf(enemies) == old(StatesOf(enemies)) + [InitialEnemy(rx, rz)]
      ensures score == old(score) && kills == old(kills)
    {
      ghost var states := StatesOf(enemies);
      enemy := new Enemy(player, rx, rz);
      assert StatesOf(enemies) == states;
      assert (enemies + [enemy])[..|enemies|] == enemies;
      enemies := enemies + [enemy];
    }

    /**
     * `update`: the player's tick, then the enemy loop from the last index
     * down to 0. The enemy list itself is not changed.
     */
    method Update(dt: real, input: Input, view: Vec3, now: real, sqrt: real -> real)
      requires Valid() && 0.0 <= dt
      modifies this, player, set e | e in enemies
      ensures Valid()
      ensures enemies == old(enemies)
      ensures Snapshot() == GameTick(old(Snapshot()), input, view, dt, now, world.colliders, sqrt)
    {
      ghost var start := Snapshot();
      UpdatePlayer(dt, input, view, now, sqrt);
      UpdateEnemies(dt, now, sqrt);
      TickKeepsInvariant(start, input, view, dt, now, world.colliders, sqrt);
    }

    /** The player's part of `update`; the enemies are not touched. */
    method UpdatePlayer(dt: real, input: Input, view: Vec3, now: real, sqrt: real -> real)
      requires Valid() && 0.0 <= dt
      modifies player
      ensures WellLinked()
      ensures Snapshot() == old(Snapshot()).(player := Step(old(Snapshot()).player, input, view, dt, now, world.colliders, sqrt))
    {
      ghost var start := Snapshot();
      player.Update(dt, input, view, now, sqrt);
      assert forall j :: 0 <= j < |enemies| ==> StatesOf(enemies)[j] == start.enemies[j];
      PointwiseEqual(StatesOf(enemies), start.enemies);
    }

    /** The enemy loop of `update`, from the last index down to 0. */
    method UpdateEnemies(dt: real, now: real, sqrt: real -> real)
      requires WellLinked()
      modifies this, player, set e | e in enemies
      ensures WellLinked() && enemies == old(enemies)
      ensures Snapshot() == ProcessEnemies(old(Snapshot()), |enemies|, dt, now, sqrt)
    {
      hide ResolveEnemy;
      ghost var g0 := Snapshot();
      var i := |enemies|;
      while 0 < i
        invariant 0 <= i <= |enemies|
        invariant enemies == old(enemies) && WellLinked()
        invariant ProcessEnemies(Snapshot(), i, dt, now, sqrt) == ProcessEnemies(g0, |enemies|, dt, now, sqrt)
        decreases i
      {
        ghost var before := Snapshot();
        i := i - 1;
        ResolveOne(i, dt, now, sqrt);
        assert ProcessEnemies(before, i + 1, dt, now, sqrt) == ProcessEnemies(Snapshot(), i, dt, now, sqrt);
      }
    }

    /** The body of the enemy loop for index `i`. */
    method ResolveOne(i: nat, dt: real, now: real, sqrt: real -> real)
      requires i < |enemies| && WellLinked()
      modifies this, player, enemies[i]
      ensures enemies == old(enemies) && WellLinked()
      ensures Snapshot() == ResolveEnemy(old(Snapshot()), i, dt, now, sqrt)
    {
      hide EnemyTurn;
      ghost var g := Snapshot();
      var enemy := enemies[i];
      var killed := PlayTurn(enemy, dt, now, sqrt);
      if killed {
        kills := kills + 1;
        score := score + KillScore;
      }
      assert forall j :: 0 <= j < |enemies| && j != i ==> enemies[j].State() == g.enemies[j];
      OneChanged(g.enemies, StatesOf(enemies), i);
    }

    /** One enemy's turn, against this game's player. */
    method PlayTurn(enemy: Enemy, dt: real, now: real, sqrt: real -> real) returns (killed: bool)
      requires enemy.player == player
      modifies player, enemy
      ensures Turn(player.State(), enemy.State(), killed) == EnemyTurn(old(player.State()), old(enemy.State()), dt, now, sqrt)
    {
      enemy.Update(dt, sqrt);
      var hit := player.CheckShootHit(enemy.GetPosition(), HitRadius, now);
      killed := false;
      if hit {
        enemy.TakeDamage(ShotDamage);
        if enemy.IsDead() {
          killed := true;
        }
      }
      if enemy.IsAttacking() {
        player.TakeDamage(AttackDamage);
      }
    }

    /** The respawn callback scheduled after a kill, with the spawn point drawn as (rx, rz). */
    method RespawnEnemy(i: nat, rx: real, rz: real)
      requires Valid() && i < |enemies|
      requires 0.0 <= rx < 1.0 && 0.0 <= rz < 1.0
      modifies enemies[i]
      ensures Valid()
      ensures Snapshot() == old(Snapshot()).(enemies := old(Snapshot()).enemies[i := Respawned(old(Snapshot()).enemies[i], rx, rz)])
    {
      ghost var g := Snapshot();
      enemies[i].Respawn(rx, rz);
      assert forall j :: 0 <= j < |enemies| && j != i ==> enemies[j].State() == g.enemies[j];
      OneChanged(g.enemies, StatesOf(enemies), i);
    }

    /** The enemy-list part of `destroy`: the list is emptied. */
    method Destroy()
      requires Valid()
      modifies this
      ensures Valid()
      ensures enemies == []
      ensures score == old(score) && kills == old(kills)
    {
      enemies := [];
    }
  }
}
