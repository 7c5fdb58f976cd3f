/** Value types shared by the model: optional arguments, 3-vectors, quaternions,
    3x3 rotation matrices, and the uninterpreted geometry and linear-algebra
    collaborators the environment calls into. */
module Values {

  datatype Option<T> = None | Some(value: T)

  /** A body handle handed out by the simulator. */
  type BodyId = nat

  datatype Vec3 = Vec3(x: real, y: real, z: real)

  /** A quaternion as the four components of a numpy array, in the geometry
      library's own order (the model never looks inside). */
  datatype Quat = Quat(q0: real, q1: real, q2: real, q3: real)

  /** A 3x3 matrix by rows. */
  datatype Mat3 = Mat3(r0: Vec3, r1: Vec3, r2: Vec3)

  /** A dense matrix as a sequence of rows (Jacobians). */
  type Matrix = seq<seq<real>>

  /** A 7x1 column of arm joint velocities. */
  type Vel7 = v: seq<real> | |v| == 7 witness [0.0, 0.0, 0.0, 0.0, 0.0, 0.0, 0.0]

  /** The quaternion [1, 0, 0, 0]: the gripper pointing straight down. */
  const StraightDown: Quat := Quat(1.0, 0.0, 0.0, 0.0)

  function Add(a: Vec3, b: Vec3): Vec3 { Vec3(a.x + b.x, a.y + b.y, a.z + b.z) }

  function Sub(a: Vec3, b: Vec3): Vec3 { Vec3(a.x - b.x, a.y - b.y, a.z - b.z) }

  function Scale(k: real, a: Vec3): Vec3 { Vec3(k * a.x, k * a.y, k * a.z) }

  function Dot(a: Vec3, b: Vec3): real { a.x * b.x + a.y * b.y + a.z * b.z }

  function Transpose(m: Mat3): Mat3 {
    Mat3(Vec3(m.r0.x, m.r1.x, m.r2.x),
         Vec3(m.r0.y, m.r1.y, m.r2.y),
         Vec3(m.r0.z, m.r1.z, m.r2.z))
  }

  /** The matrix product a.dot(b). */
  function MatMul(a: Mat3, b: Mat3): Mat3 {
    var bt := Transpose(b);
    Mat3(Vec3(Dot(a.r0, bt.r0), Dot(a.r0, bt.r1), Dot(a.r0, bt.r2)),
         Vec3(Dot(a.r1, bt.r0), Dot(a.r1, bt.r1), Dot(a.r1, bt.r2)),
         Vec3(Dot(a.r2, bt.r0), Dot(a.r2, bt.r1), Dot(a.r2, bt.r2)))
  }

  /** The vector as a flat sequence (x, y, z). */
  function Components(a: Vec3): (s: seq<real>)
    ensures |s| == 3 && s[0] == a.x && s[1] == a.y && s[2] == a.z
  {
    [a.x, a.y, a.z]
  }

  /** The column numpy's zeros((n, 1)) builds. */
  function Zeros(n: nat): (z: seq<real>)
    ensures |z| == n
    ensures forall i :: 0 <= i < n ==> z[i] == 0.0
  {
    if n == 0 then [] else Zeros(n - 1) + [0.0]
  }

  /** Concatenation regroups freely; stated once so that long logs need not be
      compared element by element. */
  lemma ConcatAssoc<T>(a: seq<T>, b: seq<T>, c: seq<T>)
    ensures (a + b) + c == a + (b + c)
  {
  }

  /** The geometry library the environment imports. Each field is an arbitrary
      function: the model claims nothing about their mathematics. */
  datatype Geometry = Geometry(
    quatMult: (Quat, Quat) -> Quat,
    euler2quat: Vec3 -> Quat,
    quat2rot: Quat -> Mat3,
    logRot: Mat3 -> Vec3,
    trajTimeScaling: (Vec3, Vec3, int) -> seq<Vec3>,
    fullJacob: (Matrix, Matrix) -> Matrix)

  /** The pseudo-inverse of a Jacobian applied to an error column: either a
      joint-velocity column or None when the solver raises LinAlgError. */
  datatype LinAlg = LinAlg(pinvDot: (Matrix, seq<real>) -> Option<Vel7>)
}
