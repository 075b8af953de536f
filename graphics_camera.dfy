/** The viewing camera of the graphics package (Camera): position, target
    and up vector, the projection parameters and a projection type, with
    the view and projection matrices cached in fields. Every setter of a
    view field refreshes the view matrix and every setter of a projection
    field refreshes the projection matrix. */
module GraphicsCamera {
  import opened JavaMath
  import opened Linear
  import V3 = Vector3
  import M4 = Matrix4

  datatype CameraType = PERSPECTIVE | ORTHOGRAPHIC

  const DEFAULT_POSITION := V3.Vector3f(0.0, 0.0, 5.0)
  const DEFAULT_TARGET := V3.Vector3f(0.0, 0.0, 0.0)
  const DEFAULT_UP := V3.Vector3f(0.0, 1.0, 0.0)
  const DEFAULT_FOV: real := 60.0
  const DEFAULT_ASPECT: real := 16.0 / 9.0
  const DEFAULT_NEAR: real := 0.1
  const DEFAULT_FAR: real := 100.0

  /** The bounds zoom keeps the distance to the target within. */
  const MIN_DISTANCE: real := 0.1
  const MAX_DISTANCE: real := 100.0

  /** The half-height of the orthographic box: the distance to the target
      times tan(fov / 2), with fov in degrees. */
  function OrthographicSize(position: V3.Vector3f, target: V3.Vector3f, fov: real): real
  {
    V3.DistanceTo(position, target) * Tan(ToRadians(fov / 2.0))
  }

  /** The matrix updateProjectionMatrix stores. */
  function Projection(cameraType: CameraType, position: V3.Vector3f, target: V3.Vector3f,
                      fov: real, aspectRatio: real, nearPlane: real, farPlane: real): Mat4
  {
    if cameraType == PERSPECTIVE then M4.Perspective(fov, aspectRatio, nearPlane, farPlane)
    else OrthographicBox(OrthographicSize(position, target, fov), aspectRatio, nearPlane, farPlane)
  }

  /** orthographic(-size * aspect, size * aspect, -size, size, near, far):
      the box updateProjectionMatrix asks for. */
  function OrthographicBox(size: real, aspectRatio: real, nearPlane: real, farPlane: real): Mat4
  {
    M4.Orthographic(-size * aspectRatio, size * aspectRatio, -size, size, nearPlane, farPlane)
  }

  /** Moving position and target by the same delta keeps the projection:
      a perspective one does not read them, and an orthographic one reads
      only their distance, which the move keeps. */
  lemma ProjectionIgnoresTranslation(cameraType: CameraType, position: V3.Vector3f, target: V3.Vector3f,
                                     delta: V3.Vector3f, fov: real, aspectRatio: real, nearPlane: real, farPlane: real)
    ensures Projection(cameraType, V3.Add(position, delta), V3.Add(target, delta), fov, aspectRatio, nearPlane, farPlane)
         == Projection(cameraType, position, target, fov, aspectRatio, nearPlane, farPlane)
  {
    MoveKeepsOffset(position, target, delta);
    assert V3.DistanceTo(V3.Add(position, delta), V3.Add(target, delta)) == V3.DistanceTo(position, target);
    assert OrthographicSize(V3.Add(position, delta), V3.Add(target, delta), fov) == OrthographicSize(position, target, fov);
    if cameraType == ORTHOGRAPHIC {
      assert Projection(cameraType, V3.Add(position, delta), V3.Add(target, delta), fov, aspectRatio, nearPlane, farPlane) == OrthographicBox(OrthographicSize(position, target, fov), aspectRatio, nearPlane, farPlane);
    }
  }

  /** The offset from position to target survives a shared move. */
  lemma MoveKeepsOffset(position: V3.Vector3f, target: V3.Vector3f, delta: V3.Vector3f)
    ensures V3.Subtract(V3.Add(target, delta), V3.Add(position, delta)) == V3.Subtract(target, position)
    ensures V3.Subtract(V3.Add(position, delta), V3.Add(target, delta)) == V3.Subtract(position, target)
    ensures V3.DistanceTo(V3.Add(position, delta), V3.Add(target, delta)) == V3.DistanceTo(position, target)
  {
  }

  /** The distance zoom asks for: distance + amount, clamped to [0.1, 100]. */
  function ZoomDistance(distance: real, amount: real): (r: real)
    ensures MIN_DISTANCE <= r <= MAX_DISTANCE
    ensures MIN_DISTANCE <= distance + amount <= MAX_DISTANCE ==> r == distance + amount
    ensures distance + amount < MIN_DISTANCE ==> r == MIN_DISTANCE
    ensures distance + amount > MAX_DISTANCE ==> r == MAX_DISTANCE
  {
    Max(MIN_DISTANCE, Min(MAX_DISTANCE, distance + amount))
  }

  /** The highest pitch rotateAroundTarget allows: pi/2 - 0.1. */
  function MaxPitch(): real
  {
    PI / 2.0 - 0.1
  }

  /** max(-maxPitch, min(maxPitch, pitch)): never below -maxPitch, and never
      above maxPitch once maxPitch is not negative (pi >= 0.2). */
  function ClampPitch(pitch: real): (r: real)
    ensures -MaxPitch() <= r
    ensures MaxPitch() >= 0.0 ==> r <= MaxPitch()
    ensures -MaxPitch() <= pitch <= MaxPitch() ==> r == pitch
  {
    Max(-MaxPitch(), Min(MaxPitch(), pitch))
  }

  /** The offset rotateAroundTarget turns: the yaw about the y axis, then the
      pitch of the result plus the requested pitch, clamped, at the length of
      the yawed offset. */
  function Orbited(direction: V3.Vector3f, yaw: real, pitch: real): V3.Vector3f
  {
    var yawRad := ToRadians(yaw);
    var pitchRad := ToRadians(pitch);
    var cosYaw, sinYaw := Cos(yawRad), Sin(yawRad);
    var yawed := V3.Vector3f(direction.x * cosYaw - direction.z * sinYaw,
                             direction.y,
                             direction.x * sinYaw + direction.z * cosYaw);
    var lengthXY := Sqrt(yawed.x * yawed.x + yawed.z * yawed.z);
    var newPitch := ClampPitch(Atan2(yawed.y, lengthXY) + pitchRad);
    var newLength := V3.Length(yawed);
    var heading := yawRad + Atan2(yawed.z, yawed.x);
    V3.Vector3f(Cos(newPitch) * Cos(heading) * newLength,
                Sin(newPitch) * newLength,
                Cos(newPitch) * Sin(heading) * newLength)
  }

  /** With no yaw and no pitch, when cos 0 = 1 and sin 0 = 0, the first step
      of rotateAroundTarget leaves the offset unchanged. */
  lemma ZeroYawKeepsOffset(direction: V3.Vector3f)
    requires Cos(ToRadians(0.0)) == 1.0 && Sin(ToRadians(0.0)) == 0.0
    ensures V3.Vector3f(direction.x * Cos(ToRadians(0.0)) - direction.z * Sin(ToRadians(0.0)),
                        direction.y,
                        direction.x * Sin(ToRadians(0.0)) + direction.z * Cos(ToRadians(0.0)))
            == direction
  {
  }

  class Camera {
    var position: V3.Vector3f
    var target: V3.Vector3f
    var up: V3.Vector3f
    var fov: real
    var aspectRatio: real
    var nearPlane: real
    var farPlane: real
    var cameraType: CameraType
    var viewMatrix: Mat4
    var projectionMatrix: Mat4

    /** The cached view matrix is lookAt of the current view fields. */
    predicate ViewValid()
      reads this
    {
      viewMatrix == M4.LookAt(position, target, up)
    }

    /** The cached projection matrix is the one the current fields give. */
    predicate ProjectionValid()
      reads this
    {
      projectionMatrix == Projection(cameraType, position, target, fov, aspectRatio, nearPlane, farPlane)
    }

    /** new Camera(): at (0, 0, 5) looking at the origin with up (0, 1, 0),
        a 60 degree perspective of aspect 16/9 from 0.1 to 100. */
    constructor()
      ensures position == DEFAULT_POSITION && target == DEFAULT_TARGET && up == DEFAULT_UP
      ensures fov == DEFAULT_FOV && aspectRatio == DEFAULT_ASPECT
      ensures nearPlane == DEFAULT_NEAR && farPlane == DEFAULT_FAR
      ensures cameraType == PERSPECTIVE
      ensures ViewValid() && ProjectionValid()
    {
      position, target, up := DEFAULT_POSITION, DEFAULT_TARGET, DEFAULT_UP;
      fov, aspectRatio, nearPlane, farPlane := DEFAULT_FOV, DEFAULT_ASPECT, DEFAULT_NEAR, DEFAULT_FAR;
      cameraType := PERSPECTIVE;
      viewMatrix, projectionMatrix := M4.Identity(), M4.Identity();
      new;
      UpdateViewMatrix();
      UpdateProjectionMatrix();
    }

    /** new Camera(position, target, up, fov, aspect, near, far): a
        perspective camera with the given fields. */
    constructor With(position: V3.Vector3f, target: V3.Vector3f, up: V3.Vector3f,
                     fov: real, aspectRatio: real, nearPlane: real, farPlane: real)
      ensures this.position == position && this.target == target && this.up == up
      ensures this.fov == fov && this.aspectRatio == aspectRatio
      ensures this.nearPlane == nearPlane && this.farPlane == farPlane
      ensures cameraType == PERSPECTIVE
      ensures ViewValid() && ProjectionValid()
    {
      this.position, this.target, this.up := position, target, up;
      this.fov, this.aspectRatio, this.nearPlane, this.farPlane := fov, aspectRatio, nearPlane, farPlane;
      cameraType := PERSPECTIVE;
      viewMatrix, projectionMatrix := M4.Identity(), M4.Identity();
      new;
      UpdateViewMatrix();
      UpdateProjectionMatrix();
    }

    /** updateViewMatrix. */
    method UpdateViewMatrix()
      modifies this
      ensures ViewValid()
      ensures position == old(position) && target == old(target) && up == old(up)
      ensures fov == old(fov) && aspectRatio == old(aspectRatio) && nearPlane == old(nearPlane) && farPlane == old(farPlane)
      ensures cameraType == old(cameraType) && projectionMatrix == old(projectionMatrix)
    {
      viewMatrix := M4.LookAt(position, target, up);
    }

    /** updateProjectionMatrix. */
    method UpdateProjectionMatrix()
      modifies this
      ensures ProjectionValid()
      ensures position == old(position) && target == old(target) && up == old(up)
      ensures fov == old(fov) && aspectRatio == old(aspectRatio) && nearPlane == old(nearPlane) && farPlane == old(farPlane)
      ensures cameraType == old(cameraType) && viewMatrix == old(viewMatrix)
    {
      if cameraType == PERSPECTIVE {
        projectionMatrix := M4.Perspective(fov, aspectRatio, nearPlane, farPlane);
      } else {
        var distance := V3.DistanceTo(position, target);
        var size := distance * Tan(ToRadians(fov / 2.0));
        assert size == OrthographicSize(position, target, fov);
        projectionMatrix := OrthographicBox(size, aspectRatio, nearPlane, farPlane);
      }
    }

    /** move(delta): position and target shift together, so the offset
        between them, and with it an orthographic projection, is kept. */
    method Move(delta: V3.Vector3f)
      modifies this
      ensures position == V3.Add(old(position), delta) && target == V3.Add(old(target), delta)
      ensures V3.Subtract(target, position) == V3.Subtract(old(target), old(position))
      ensures ViewValid()
      ensures old(ProjectionValid()) ==> ProjectionValid()
      ensures up == old(up) && fov == old(fov) && aspectRatio == old(aspectRatio)
      ensures nearPlane == old(nearPlane) && farPlane == old(farPlane)
      ensures cameraType == old(cameraType) && projectionMatrix == old(projectionMatrix)
    {
      ProjectionIgnoresTranslation(cameraType, position, target, delta, fov, aspectRatio, nearPlane, farPlane);
      MoveKeepsOffset(position, target, delta);
      position := V3.Add(position, delta);
      target := V3.Add(target, delta);
      UpdateViewMatrix();
    }

    /** rotateAroundTarget(yaw, pitch): the offset from the target is
        orbited and the camera placed at target + offset; the target never
        moves and the projection matrix is not refreshed. */
    method RotateAroundTarget(yaw: real, pitch: real)
      modifies this
      ensures target == old(target)
      ensures position == V3.Add(old(target), Orbited(V3.Subtract(old(position), old(target)), yaw, pitch))
      ensures ViewValid()
      ensures up == old(up) && fov == old(fov) && aspectRatio == old(aspectRatio)
      ensures nearPlane == old(nearPlane) && farPlane == old(farPlane)
      ensures cameraType == old(cameraType) && projectionMatrix == old(projectionMatrix)
    {
      var direction := Orbited(V3.Subtract(position, target), yaw, pitch);
      position := V3.Add(target, direction);
      UpdateViewMatrix();
    }

    /** zoom(amount): the distance to the target becomes distance + amount
        clamped to [0.1, 100], along the current viewing ray; nothing moves
        when the clamped distance equals the current one. */
    method Zoom(amount: real)
      modifies this
      ensures target == old(target)
      ensures var distance := V3.DistanceTo(old(position), old(target));
              ZoomDistance(distance, amount) == distance ==> position == old(position) && viewMatrix == old(viewMatrix)
      ensures var distance := V3.DistanceTo(old(position), old(target));
              ZoomDistance(distance, amount) != distance ==>
                position == V3.Add(old(target), V3.Multiply(V3.Normalize(V3.Subtract(old(position), old(target))), ZoomDistance(distance, amount)))
                && ViewValid()
      ensures old(ViewValid()) ==> ViewValid()
      ensures up == old(up) && fov == old(fov) && aspectRatio == old(aspectRatio)
      ensures nearPlane == old(nearPlane) && farPlane == old(farPlane)
      ensures cameraType == old(cameraType) && projectionMatrix == old(projectionMatrix)
    {
      var direction := V3.Normalize(V3.Subtract(position, target));
      var distance := V3.DistanceTo(position, target);
      var newDistance := Max(0.1, Min(100.0, distance + amount));
      if newDistance != distance {
        position := V3.Add(target, V3.Multiply(direction, newDistance));
        UpdateViewMatrix();
      }
    }

    /** setCameraType: the projection is rebuilt; the view is untouched. */
    method SetCameraType(cameraType: CameraType)
      modifies this
      ensures this.cameraType == cameraType && ProjectionValid()
      ensures position == old(position) && target == old(target) && up == old(up)
      ensures fov == old(fov) && aspectRatio == old(aspectRatio) && nearPlane == old(nearPlane) && farPlane == old(farPlane)
      ensures viewMatrix == old(viewMatrix)
    {
      this.cameraType := cameraType;
      UpdateProjectionMatrix();
    }

    /** setProjectionParams: all four parameters, then the projection. */
    method SetProjectionParams(fov: real, aspectRatio: real, nearPlane: real, farPlane: real)
      modifies this
      ensures this.fov == fov && this.aspectRatio == aspectRatio && this.nearPlane == nearPlane && this.farPlane == farPlane
      ensures ProjectionValid()
      ensures position == old(position) && target == old(target) && up == old(up)
      ensures cameraType == old(cameraType) && viewMatrix == old(viewMatrix)
    {
      this.fov, this.aspectRatio, this.nearPlane, this.farPlane := fov, aspectRatio, nearPlane, farPlane;
      UpdateProjectionMatrix();
    }

    /** setPosition, setTarget and setUp refresh the view matrix. */
    method SetPosition(position: V3.Vector3f)
      modifies this
      ensures this.position == position && ViewValid()
      ensures target == old(target) && up == old(up)
      ensures fov == old(fov) && aspectRatio == old(aspectRatio) && nearPlane == old(nearPlane) && farPlane == old(farPlane)
      ensures cameraType == old(cameraType) && projectionMatrix == old(projectionMatrix)
    {
      this.position := position;
      UpdateViewMatrix();
    }

    method SetTarget(target: V3.Vector3f)
      modifies this
      ensures this.target == target && ViewValid()
      ensures position == old(position) && up == old(up)
      ensures fov == old(fov) && aspectRatio == old(aspectRatio) && nearPlane == old(nearPlane) && farPlane == old(farPlane)
      ensures cameraType == old(cameraType) && projectionMatrix == old(projectionMatrix)
    {
      this.target := target;
      UpdateViewMatrix();
    }

    method SetUp(up: V3.Vector3f)
      modifies this
      ensures this.up == up && ViewValid()
      ensures position == old(position) && target == old(target)
      ensures fov == old(fov) && aspectRatio == old(aspectRatio) && nearPlane == old(nearPlane) && farPlane == old(farPlane)
      ensures cameraType == old(cameraType) && projectionMatrix == old(projectionMatrix)
    {
      this.up := up;
      UpdateViewMatrix();
    }

    /** setFov, setAspectRatio, setNearPlane and setFarPlane refresh the
        projection matrix. */
    method SetFov(fov: real)
      modifies this
      ensures this.fov == fov && ProjectionValid()
      ensures position == old(position) && target == old(target) && up == old(up)
      ensures aspectRatio == old(aspectRatio) && nearPlane == old(nearPlane) && farPlane == old(farPlane)
      ensures cameraType == old(cameraType) && viewMatrix == old(viewMatrix)
    {
      this.fov := fov;
      UpdateProjectionMatrix();
    }

    method SetAspectRatio(aspectRatio: real)
      modifies this
      ensures this.aspectRatio == aspectRatio && ProjectionValid()
      ensures position == old(position) && target == old(target) && up == old(up)
      ensures fov == old(fov) && nearPlane == old(nearPlane) && farPlane == old(farPlane)
      ensures cameraType == old(cameraType) && viewMatrix == old(viewMatrix)
    {
      this.aspectRatio := aspectRatio;
      UpdateProjectionMatrix();
    }

    method SetNearPlane(nearPlane: real)
      modifies this
      ensures this.nearPlane == nearPlane && ProjectionValid()
      ensures position == old(position) && target == old(target) && up == old(up)
      ensures fov == old(fov) && aspectRatio == old(aspectRatio) && farPlane == old(farPlane)
      ensures cameraType == old(cameraType) && viewMatrix == old(viewMatrix)
    {
      this.nearPlane := nearPlane;
      UpdateProjectionMatrix();
    }

    method SetFarPlane(farPlane: real)
      modifies this
      ensures this.farPlane == farPlane && ProjectionValid()
      ensures position == old(position) && target == old(target) && up == old(up)
      ensures fov == old(fov) && aspectRatio == old(aspectRatio) && nearPlane == old(nearPlane)
      ensures cameraType == old(cameraType) && viewMatrix == old(viewMatrix)
    {
      this.farPlane := farPlane;
      UpdateProjectionMatrix();
    }
  }
}
