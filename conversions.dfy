/** The converters between the vector, quaternion and matrix types of the
    maths library (glm), the physics engine (PhysX) and the scene importer
    (Assimp). Components are copied, never combined, so every value is a
    `real` carried across unchanged. */
module Conversions {

  /** `glm::vec3`. */
  datatype GlmVec3 = GlmVec3(x: real, y: real, z: real)

  /** `PxVec3`. */
  datatype PxVec3 = PxVec3(x: real, y: real, z: real)

  /** `glm::quat`, constructed as (w, x, y, z). */
  datatype GlmQuat = GlmQuat(w: real, x: real, y: real, z: real)

  /** `PxQuat`, constructed as (x, y, z, w). */
  datatype PxQuat = PxQuat(x: real, y: real, z: real, w: real)

  /** `aiQuaternion`, constructed as (w, x, y, z). */
  datatype AiQuat = AiQuat(w: real, x: real, y: real, z: real)

  /** Four rows of four values. */
  type Grid4 = g: seq<seq<real>> | |g| == 4 && forall i | 0 <= i < 4 :: |g[i]| == 4
    witness [[0.0, 0.0, 0.0, 0.0], [0.0, 0.0, 0.0, 0.0], [0.0, 0.0, 0.0, 0.0], [0.0, 0.0, 0.0, 0.0]]

  /** `glm::mat4`: `m[c][r]` is column c, row r (column major). */
  datatype GlmMat4 = GlmMat4(m: Grid4)

  /** `aiMatrix4x4`: `m[r][c]` is row r, column c (row major). */
  datatype AiMat4 = AiMat4(m: Grid4)

  function FromPxVec(from: PxVec3): (r: GlmVec3)
    ensures r.x == from.x && r.y == from.y && r.z == from.z
  {
    GlmVec3(from.x, from.y, from.z)
  }

  function FromGLMVec(from: GlmVec3): (r: PxVec3)
    ensures r.x == from.x && r.y == from.y && r.z == from.z
  {
    PxVec3(from.x, from.y, from.z)
  }

  function FromPxQuat(from: PxQuat): (r: GlmQuat)
    ensures r.w == from.w && r.x == from.x && r.y == from.y && r.z == from.z
  {
    GlmQuat(from.w, from.x, from.y, from.z)
  }

  function FromGLMQuat(from: GlmQuat): (r: PxQuat)
    ensures r.w == from.w && r.x == from.x && r.y == from.y && r.z == from.z
  {
    PxQuat(from.x, from.y, from.z, from.w)
  }

  function FromAssimpQuat(from: AiQuat): (r: GlmQuat)
    ensures r.w == from.w && r.x == from.x && r.y == from.y && r.z == from.z
  {
    GlmQuat(from.w, from.x, from.y, from.z)
  }

  /** The element-by-element copy `result[i][j] = m[j][i]` that both matrix
      converters perform. */
  function Transpose(g: Grid4): (t: Grid4)
    ensures forall i, j | 0 <= i < 4 && 0 <= j < 4 :: t[i][j] == g[j][i]
  {
    seq(4, i requires 0 <= i < 4 => seq(4, j requires 0 <= j < 4 => g[j][i]))
  }

  /** Assimp's row-major matrix into glm's column-major one: the entry at
      row r, column c stays at row r, column c. */
  function FromAssimpMat(mat: AiMat4): (res: GlmMat4)
    ensures forall r, c | 0 <= r < 4 && 0 <= c < 4 :: res.m[c][r] == mat.m[r][c]
  {
    GlmMat4(Transpose(mat.m))
  }

  /** glm's column-major matrix into Assimp's row-major one, likewise. */
  function FromGLMMat(mat: GlmMat4): (res: AiMat4)
    ensures forall r, c | 0 <= r < 4 && 0 <= c < 4 :: res.m[r][c] == mat.m[c][r]
  {
    AiMat4(Transpose(mat.m))
  }

  // ---------------------------------------------------------------------

  /** Transposing twice gives back the grid. */
  lemma {:induction false} TransposeInvolutive(g: Grid4)
    ensures Transpose(Transpose(g)) == g
  {
    var t := Transpose(Transpose(g));
    forall i | 0 <= i < 4
      ensures t[i] == g[i]
    {
      assert forall j | 0 <= j < 4 :: t[i][j] == g[i][j];
    }
  }

  /** Converting a matrix from Assimp to glm and back, or from glm to
      Assimp and back, gives back the original matrix. */
  lemma {:induction false} MatRoundTrips(a: AiMat4, g: GlmMat4)
    ensures FromGLMMat(FromAssimpMat(a)) == a
    ensures FromAssimpMat(FromGLMMat(g)) == g
  {
    TransposeInvolutive(a.m);
    TransposeInvolutive(g.m);
  }

  /** Vector converters are mutually inverse. */
  lemma VecRoundTrips(p: PxVec3, g: GlmVec3)
    ensures FromGLMVec(FromPxVec(p)) == p
    ensures FromPxVec(FromGLMVec(g)) == g
  {
  }

  /** Quaternion converters are mutually inverse despite the different
      constructor orders, and Assimp's quaternion reaches glm with the same
      components as it would through PhysX. */
  lemma QuatRoundTrips(p: PxQuat, g: GlmQuat, a: AiQuat)
    ensures FromGLMQuat(FromPxQuat(p)) == p
    ensures FromPxQuat(FromGLMQuat(g)) == g
    ensures FromAssimpQuat(a) == FromPxQuat(PxQuat(a.x, a.y, a.z, a.w))
  {
  }
}
