/** The procedural spheres of the scene (`SphereHandler`): the sphere list,
    the axis-aligned bounding box of each sphere uploaded to a device buffer,
    and the AABB geometry the bottom-level acceleration structure is built
    from. The intersection shader that turns a box hit into a sphere hit is
    not part of this model. */
module Spheres {
  import opened Common
  import opened Vk

  datatype Sphere = Sphere(center: Vec3, radius: real)

  datatype Aabb = Aabb(min: Vec3, max: Vec3)

  /** `p` lies in the closed box `b`. */
  predicate Contains(b: Aabb, p: Vec3) {
    b.min.x <= p.x <= b.max.x && b.min.y <= p.y <= b.max.y && b.min.z <= p.z <= b.max.z
  }

  function Dot(a: Vec3, b: Vec3): real {
    a.x * b.x + a.y * b.y + a.z * b.z
  }

  /** `p` lies in the closed ball of `s`. */
  predicate InBall(s: Sphere, p: Vec3) {
    Dot(Minus(p, s.center), Minus(p, s.center)) <= s.radius * s.radius
  }

  /** The box of one sphere: `center ∓ vec3f(radius)`. It is centred on the
      sphere and its sides are one diameter long. */
  function BoundingBox(s: Sphere): (b: Aabb)
    ensures s.radius >= 0.0 ==> Contains(b, s.center)
    ensures b.max.x - b.min.x == b.max.y - b.min.y == b.max.z - b.min.z == 2.0 * s.radius
    ensures Plus(b.min, b.max) == Plus(s.center, s.center)
  {
    Aabb(Minus(s.center, Splat(s.radius)), Plus(s.center, Splat(s.radius)))
  }

  lemma SquareBound(d: real, r: real)
    requires r >= 0.0 && d * d <= r * r
    ensures -r <= d <= r
  {
    if d > r {
      SquareGrows(d, r);
      assert false;
    } else if d < -r {
      SquareGrows(-d, r);
      assert false;
    }
  }

  lemma SquareGrows(a: real, b: real)
    requires a > b >= 0.0
    ensures a * a > b * b
  {
    assert a * a - a * b == a * (a - b) > 0.0;
    assert a * b - b * b == b * (a - b) >= 0.0;
  }

  /** The box of a sphere with non-negative radius encloses its whole ball, so
      no ray that hits the sphere misses its AABB. */
  lemma BallInsideBox(s: Sphere, p: Vec3)
    requires s.radius >= 0.0
    requires InBall(s, p)
    ensures Contains(BoundingBox(s), p)
  {
    var d := Minus(p, s.center);
    var r := s.radius;
    assert d.x * d.x <= r * r && d.y * d.y <= r * r && d.z * d.z <= r * r by {
      assert d.x * d.x >= 0.0 && d.y * d.y >= 0.0 && d.z * d.z >= 0.0;
    }
    SquareBound(d.x, r);
    SquareBound(d.y, r);
    SquareBound(d.z, r);
  }

  /** The box is tight: on every axis the ball touches both faces. */
  lemma BoxIsTight(s: Sphere)
    requires s.radius >= 0.0
    ensures var b := BoundingBox(s);
      InBall(s, Vec3(b.min.x, s.center.y, s.center.z)) && InBall(s, Vec3(b.max.x, s.center.y, s.center.z))
      && InBall(s, Vec3(s.center.x, b.min.y, s.center.z)) && InBall(s, Vec3(s.center.x, b.max.y, s.center.z))
      && InBall(s, Vec3(s.center.x, s.center.y, b.min.z)) && InBall(s, Vec3(s.center.x, s.center.y, b.max.z))
  {
  }

  /** The AABB loop of the `SphereHandler` constructor: one box per sphere, in order. */
  method BoundingBoxes(spheres: seq<Sphere>) returns (aabbs: seq<Aabb>)
    ensures |aabbs| == |spheres|
    ensures forall i :: 0 <= i < |spheres| ==> aabbs[i] == BoundingBox(spheres[i])
  {
    aabbs := [];
    for i := 0 to |spheres|
      invariant |aabbs| == i
      invariant forall j :: 0 <= j < i ==> aabbs[j] == BoundingBox(spheres[j])
    {
      aabbs := aabbs + [BoundingBox(spheres[i])];
    }
  }

  /** The single sphere of the scene. */
  const SceneSphere: Sphere := Sphere(Vec3(0.0, 0.0, -1.0), 0.5)

  class SphereHandler {
    var spheres: seq<Sphere>
    /** The contents of the AABB device buffer. */
    var uploadedAabbs: seq<Aabb>
    var spheresBuffer: Buffer
    var aabbBuffer: Buffer

    /** The AABB buffer holds exactly the box of every sphere, in order, and
        the two device buffers are distinct. */
    ghost predicate Valid()
      reads this
    {
      |uploadedAabbs| == |spheres|
      && (forall i :: 0 <= i < |spheres| ==> uploadedAabbs[i] == BoundingBox(spheres[i]))
      && spheresBuffer != aabbBuffer
    }

    /** Fills the sphere list, computes the boxes and uploads both to new
        device buffers, the spheres first. */
    constructor(alloc: Allocator)
      modifies alloc`created
      ensures Valid()
      ensures spheres == [SceneSphere]
      ensures spheresBuffer == Buffer(|old(alloc.created)|) && aabbBuffer == Buffer(|old(alloc.created)| + 1)
      ensures alloc.created == old(alloc.created) + [spheresBuffer, aabbBuffer]
    {
      var all: seq<Sphere> := [Sphere(Vec3(0.0, 0.0, 0.0), 0.0)];
      for i := 0 to 1
        invariant |all| == 1
        invariant forall j :: 0 <= j < i ==> all[j] == SceneSphere
      {
        all := all[i := SceneSphere];
      }
      assert all == [SceneSphere];
      var boxes := BoundingBoxes(all);
      var sb := alloc.CreateBuffer();
      var ab := alloc.CreateBuffer();
      spheres := all;
      uploadedAabbs := boxes;
      spheresBuffer := sb;
      aabbBuffer := ab;
    }

    /** `toVkGeometryKHR`: one opaque AABB geometry reading the box buffer
        (whose device address `addressOf` gives) with the stride of one box,
        and a build range covering exactly the boxes in that buffer. */
    function ToGeometry(addressOf: Buffer -> nat): (r: BlasInput)
      reads this
      requires Valid()
      ensures |r.geometries| == 1 && |r.ranges| == 1
      ensures r.geometries[0].isOpaque
      ensures r.geometries[0].data == Aabbs(addressOf(aabbBuffer), AabbSize)
      ensures r.ranges[0].primitiveCount == |uploadedAabbs| == |spheres|
      ensures r.ranges[0].primitiveOffset == 0 && r.ranges[0].firstVertex == 0 && r.ranges[0].transformOffset == 0
    {
      var aabbs := Aabbs(addressOf(aabbBuffer), AabbSize);
      var offset := BuildRange(|spheres|, 0, 0, 0);
      BlasInput([Geometry(aabbs, true)], [offset])
    }

    function GetSpheresBuffer(): Buffer
      reads this
    {
      spheresBuffer
    }

    function GetSpheresAabbBuffer(): Buffer
      reads this
    {
      aabbBuffer
    }

    /** `destroy`: both buffers go back to the allocator, spheres first. */
    method Destroy(alloc: Allocator)
      modifies alloc`released
      ensures alloc.released == old(alloc.released) + [GetSpheresBuffer(), GetSpheresAabbBuffer()]
    {
      alloc.Destroy(spheresBuffer);
      alloc.Destroy(aabbBuffer);
    }
  }
}
