/**
 * The level's static collision geometry: four boundary walls and six
 * obstacles, each an axis-aligned box built from a centre and a size. The
 * table is fixed when the world is constructed and only read afterwards.
 */
module FpsWorld {
  import opened FpsGeometry

  /** One entry of the level description: where a box stands and how big it is. */
  datatype Placement = Placement(pos: Vec3, size: Vec3)

  /** The boundary walls, back, front, left, right. */
  function WallPlacements(): seq<Placement> {
    [ Placement(Vec3(0.0, 2.5, -50.0), Vec3(100.0, 5.0, 1.0)),
      Placement(Vec3(0.0, 2.5, 50.0), Vec3(100.0, 5.0, 1.0)),
      Placement(Vec3(-50.0, 2.5, 0.0), Vec3(1.0, 5.0, 100.0)),
      Placement(Vec3(50.0, 2.5, 0.0), Vec3(1.0, 5.0, 100.0)) ]
  }

  /** The obstacles inside the arena. */
  function ObstaclePlacements(): seq<Placement> {
    [ Placement(Vec3(10.0, 1.5, 10.0), Vec3(3.0, 3.0, 3.0)),
      Placement(Vec3(-15.0, 1.5, -15.0), Vec3(4.0, 3.0, 4.0)),
      Placement(Vec3(20.0, 1.0, -20.0), Vec3(2.0, 2.0, 2.0)),
      Placement(Vec3(-25.0, 2.0, 15.0), Vec3(5.0, 4.0, 3.0)),
      Placement(Vec3(15.0, 1.5, -10.0), Vec3(3.0, 3.0, 3.0)),
      Placement(Vec3(-10.0, 2.0, 20.0), Vec3(4.0, 4.0, 2.0)) ]
  }

  ghost predicate WellFormed(b: Aabb) {
    b.min.x <= b.max.x && b.min.y <= b.max.y && b.min.z <= b.max.z
  }

  /** The collision box of a placement: centre minus and plus half the size. */
  function BoxAround(p: Placement): (b: Aabb)
    ensures b.max.x - b.min.x == p.size.x && b.max.y - b.min.y == p.size.y && b.max.z - b.min.z == p.size.z
    ensures b.min.x + b.max.x == 2.0 * p.pos.x && b.min.y + b.max.y == 2.0 * p.pos.y && b.min.z + b.max.z == 2.0 * p.pos.z
    ensures 0.0 <= p.size.x && 0.0 <= p.size.y && 0.0 <= p.size.z ==> WellFormed(b)
    ensures 2.0 * p.pos.y == p.size.y ==> b.min.y == 0.0
  {
    var half := Vec3(p.size.x / 2.0, p.size.y / 2.0, p.size.z / 2.0);
    Aabb(Sub(p.pos, half), Add(p.pos, half))
  }

  /** The boxes of a list of placements, in the same order. */
  function Boxes(ps: seq<Placement>): (bs: seq<Aabb>)
    ensures |bs| == |ps|
    ensures forall i :: 0 <= i < |ps| ==> bs[i] == BoxAround(ps[i])
  {
    if |ps| == 0 then [] else Boxes(ps[..|ps| - 1]) + [BoxAround(ps[|ps| - 1])]
  }

  /** Every size is non-negative and every box stands on the ground plane. */
  ghost predicate GroundedPlacements(ps: seq<Placement>) {
    forall i :: 0 <= i < |ps| ==>
      0.0 <= ps[i].size.x && 0.0 <= ps[i].size.y && 0.0 <= ps[i].size.z && 2.0 * ps[i].pos.y == ps[i].size.y
  }

  lemma GroundedBoxes(ps: seq<Placement>)
    requires GroundedPlacements(ps)
    ensures forall i :: 0 <= i < |ps| ==> WellFormed(Boxes(ps)[i]) && Boxes(ps)[i].min.y == 0.0
  {
    forall i | 0 <= i < |ps|
      ensures WellFormed(Boxes(ps)[i]) && Boxes(ps)[i].min.y == 0.0
    {
      assert Boxes(ps)[i] == BoxAround(ps[i]);
    }
  }

  /**
   * The collider table a freshly built world holds: the four walls, then the
   * six obstacles, in the order the level lists them. Every box is a proper
   * box standing on the ground plane.
   */
  function LevelColliders(): (cs: seq<Aabb>)
    ensures |cs| == |WallPlacements()| + |ObstaclePlacements()| == 10
    ensures forall i :: 0 <= i < |cs| ==> WellFormed(cs[i]) && cs[i].min.y == 0.0
  {
    var walls, obstacles := WallPlacements(), ObstaclePlacements();
    assert GroundedPlacements(walls);
    assert GroundedPlacements(obstacles);
    GroundedBoxes(walls);
    GroundedBoxes(obstacles);
    var ws, os := Boxes(walls), Boxes(obstacles);
    assert forall i :: 0 <= i < |ws| + |os| ==> (ws + os)[i] == if i < |ws| then ws[i] else os[i - |ws|];
    ws + os
  }

  /** The table lists the walls first and then the obstacles, each at its place. */
  lemma LevelLayout()
    ensures forall i :: 0 <= i < 4 ==> LevelColliders()[i] == BoxAround(WallPlacements()[i])
    ensures forall i :: 4 <= i < 10 ==> LevelColliders()[i] == BoxAround(ObstaclePlacements()[i - 4])
  {
    var ws, os := Boxes(WallPlacements()), Boxes(ObstaclePlacements());
    assert LevelColliders() == ws + os;
  }

  /** The back wall spans the arena's width, 5 high and 1 thick, centred on z = -50. */
  lemma BackWallBox()
    ensures LevelColliders()[0] == Aabb(Vec3(-50.0, 0.0, -50.5), Vec3(50.0, 5.0, -49.5))
  {
    LevelLayout();
  }

  /** `createWalls`: push the box of every wall onto the collider list. */
  method CreateWalls(colliders: seq<Aabb>) returns (r: seq<Aabb>)
    ensures r == colliders + Boxes(WallPlacements())
  {
    var walls := WallPlacements();
    r := colliders;
    for i := 0 to |walls|
      invariant r == colliders + Boxes(walls[..i])
    {
      assert walls[..i + 1][..i] == walls[..i];
      r := r + [BoxAround(walls[i])];
    }
    assert walls[..|walls|] == walls;
  }

  /** `createObstacles`: push the box of every obstacle onto the collider list. */
  method CreateObstacles(colliders: seq<Aabb>) returns (r: seq<Aabb>)
    ensures r == colliders + Boxes(ObstaclePlacements())
  {
    var obstacles := ObstaclePlacements();
    r := colliders;
    for i := 0 to |obstacles|
      invariant r == colliders + Boxes(obstacles[..i])
    {
      assert obstacles[..i + 1][..i] == obstacles[..i];
      r := r + [BoxAround(obstacles[i])];
    }
    assert obstacles[..|obstacles|] == obstacles;
  }

  /**
   * The world. Lighting, ground and meshes are the renderer's; what the
   * simulation sees is the collider table, which is a constant: nothing
   * changes it once the constructor has built it.
   */
  class World {
    const colliders: seq<Aabb>

    constructor ()
      ensures colliders == LevelColliders()
    {
      var cs := CreateWalls([]);
      cs := CreateObstacles(cs);
      colliders := cs;
    }

    /** `getColliders`: the stored table itself. */
    function GetColliders(): (cs: seq<Aabb>)
      ensures cs == colliders
    {
      colliders
    }
  }
}
