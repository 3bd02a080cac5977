/**
  What every drawable geometry hands to the GPU once `create()` has run:
  an index array, a position array, a normal array and the draw count.
  The buffer uploads themselves are not modelled; a `Mesh` is the record
  of what would be uploaded.
 */
module Drawable {

  /** The centre a geometry is constructed with. */
  datatype Vec3 = Vec3(x: real, y: real, z: real) {

    /** Component `j` (0 = x, 1 = y, 2 = z), as `center[j]` reads it. */
    function At(j: nat): real
      requires j < 3
    {
      if j == 0 then x else if j == 1 then y else z
    }
  }

  const Origin: Vec3 := Vec3(0.0, 0.0, 0.0)

  /** The uploaded arrays: indices as stored in a `Uint32Array`, positions and
      normals as flat x, y, z, w quadruples, and the draw count. */
  datatype Mesh<T> = Mesh(indices: seq<nat>, positions: seq<T>, normals: seq<T>, count: nat)

  /** The upload step shared by every geometry: the arrays are passed on as
      they are and the draw count is set from the index array. */
  function Upload<T>(indices: seq<nat>, positions: seq<T>, normals: seq<T>): (m: Mesh<T>)
    ensures m.count == |m.indices|
    ensures m.indices == indices && m.positions == positions && m.normals == normals
  {
    Mesh(indices, positions, normals, |indices|)
  }
}
