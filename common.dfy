/** Value types shared by the scripts: nullable references, Unity vectors and poses. */
module Common {

  /** A C# reference that may be null: `None` stands for null. */
  datatype Option<+T> = None | Some(value: T)

  /** `UnityEngine.Vector2`, used for screen positions in pixels. */
  datatype Vec2 = Vec2(x: real, y: real)

  /** `UnityEngine.Vector3`, used for positions, scales and Euler angles. */
  datatype Vec3 = Vec3(x: real, y: real, z: real)
  {
    /** `v * k`: every component multiplied by the scalar `k`. */
    function Scale(k: real): (r: Vec3)
      ensures k == 1.0 ==> r == this
    {
      Vec3(x * k, y * k, z * k)
    }
  }

  /** The Euler rotation `Quaternion.Euler(0, yaw, 0)`, a pure turn about the vertical axis. */
  function YawOnly(yaw: real): Vec3
  {
    Vec3(0.0, yaw, 0.0)
  }

  /** A pose reported by an AR raycast against a tracked plane (position and Euler rotation). */
  datatype Pose = Pose(position: Vec3, rotation: Vec3)

  /** `TouchPhase`. */
  datatype Phase = Began | Moved | Stationary | Ended | Canceled

  /** One entry of `Input.touches`. */
  datatype Touch = Touch(fingerId: int, phase: Phase, position: Vec2)
}
