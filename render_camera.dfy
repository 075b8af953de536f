/** The interactive camera of the renderer (render_engine Camera): a mode
    state machine over FIXED, FREE_FLIGHT and ORBIT. An orbiting camera
    keeps its target and moves on a sphere around it; a free-flying camera
    keeps its position and turns its target; a fixed camera ignores the
    mouse and the keyboard. Angles are kept in degrees. */
module RenderCamera {
  import opened JavaMath
  import V3 = Vector3

  datatype CameraMode = FIXED | FREE_FLIGHT | ORBIT

  datatype CameraMovement = FORWARD | BACKWARD | LEFT | RIGHT | UP | DOWN

  /** A heading in the xz-plane and an elevation above it, in degrees. */
  datatype Angles = Angles(yaw: real, pitch: real)

  const WORLD_UP := V3.Vector3f(0.0, 1.0, 0.0)

  /** The pitch limit of both movable modes, in degrees. */
  const MAX_PITCH: real := 89.0
  /** The bounds of the orbit distance and of the field of view. */
  const MIN_ORBIT_DISTANCE: real := 1.0
  const MAX_ORBIT_DISTANCE: real := 500.0
  const MIN_FOV: real := 1.0
  const MAX_FOV: real := 120.0
  /** How far ahead of a free-flying camera its target is put. */
  const FREE_TARGET_DISTANCE: real := 10.0

  /** The two-step clamp of the code: values below lo become lo, values
      above hi become hi. */
  function Clamp(value: real, lo: real, hi: real): (r: real)
    requires lo <= hi
    ensures lo <= r <= hi
    ensures lo <= value <= hi ==> r == value
    ensures value < lo ==> r == lo
    ensures value > hi ==> r == hi
  {
    if value < lo then lo else if value > hi then hi else value
  }

  /** The spherical angles of a direction: the heading atan2(z, x) and the
      elevation atan2(y, |(x, z)|) of the normalized vector, in degrees. */
  function SphericalAngles(d: V3.Vector3f): Angles
  {
    var u := V3.Normalize(d);
    Angles(ToDegrees(Atan2(u.z, u.x)), ToDegrees(Atan2(u.y, Sqrt(u.x * u.x + u.z * u.z))))
  }

  /** updateOrbitParametersFromPosition: the distance from the target is
      always taken; the angles only when that distance is positive. */
  function OrbitDistance(position: V3.Vector3f, target: V3.Vector3f): real
  {
    V3.Length(V3.Subtract(position, target))
  }

  function OrbitAngles(position: V3.Vector3f, target: V3.Vector3f, old_: Angles): Angles
  {
    if OrbitDistance(position, target) > 0.0 then SphericalAngles(V3.Subtract(position, target)) else old_
  }

  /** updateFreeCameraAngles: the angles of the viewing direction, when it
      has a positive length. */
  function FreeAngles(position: V3.Vector3f, target: V3.Vector3f, old_: Angles): Angles
  {
    if V3.Length(V3.Subtract(target, position)) > 0.0 then SphericalAngles(V3.Subtract(target, position)) else old_
  }

  /** updateOrbitCameraPosition: the offset from the target at the given
      angles (degrees) and distance. */
  function OrbitOffset(yaw: real, pitch: real, distance: real): V3.Vector3f
  {
    var yawRad := ToRadians(yaw);
    var pitchRad := ToRadians(pitch);
    V3.Vector3f(distance * Cos(pitchRad) * Cos(yawRad),
                distance * Sin(pitchRad),
                distance * Cos(pitchRad) * Sin(yawRad))
  }

  /** updateFreeCameraTarget: ten units along the unit direction of the
      given angles. */
  function FreeDirection(yaw: real, pitch: real): V3.Vector3f
  {
    var yawRad := ToRadians(yaw);
    var pitchRad := ToRadians(pitch);
    V3.Normalize(V3.Vector3f(Cos(pitchRad) * Cos(yawRad), Sin(pitchRad), Cos(pitchRad) * Sin(yawRad)))
  }

  function FreeTarget(position: V3.Vector3f, yaw: real, pitch: real): V3.Vector3f
  {
    V3.Add(position, V3.Multiply(FreeDirection(yaw, pitch), FREE_TARGET_DISTANCE))
  }

  /** Where processKeyboard moves the position: along the viewing direction,
      the side axis up × front, or the axis side × front, each normalized. */
  function KeyboardStep(position: V3.Vector3f, target: V3.Vector3f, up: V3.Vector3f,
                        direction: CameraMovement, velocity: real): V3.Vector3f
  {
    var front := V3.Normalize(V3.Subtract(target, position));
    var right := V3.Normalize(V3.Cross(up, front));
    var upVector := V3.Normalize(V3.Cross(right, front));
    match direction
    case FORWARD => V3.Add(position, V3.Multiply(front, velocity))
    case BACKWARD => V3.Subtract(position, V3.Multiply(front, velocity))
    case LEFT => V3.Subtract(position, V3.Multiply(right, velocity))
    case RIGHT => V3.Add(position, V3.Multiply(right, velocity))
    case UP => V3.Add(position, V3.Multiply(upVector, velocity))
    case DOWN => V3.Subtract(position, V3.Multiply(upVector, velocity))
  }

  /** The orbit keeps the camera at the orbit distance from the target:
      given cos² + sin² = 1 at both angles, the squared length of the offset
      is the squared distance. */
  lemma {:induction false} OrbitOffsetLength(yaw: real, pitch: real, distance: real)
    requires Cos(ToRadians(yaw)) * Cos(ToRadians(yaw)) + Sin(ToRadians(yaw)) * Sin(ToRadians(yaw)) == 1.0
    requires Cos(ToRadians(pitch)) * Cos(ToRadians(pitch)) + Sin(ToRadians(pitch)) * Sin(ToRadians(pitch)) == 1.0
    ensures V3.LengthSquared(OrbitOffset(yaw, pitch, distance)) == distance * distance
  {
    var cy, sy := Cos(ToRadians(yaw)), Sin(ToRadians(yaw));
    var cp, sp := Cos(ToRadians(pitch)), Sin(ToRadians(pitch));
    SquareOfProduct3(distance, cp, cy);
    SquareOfProduct2(distance, sp);
    SquareOfProduct3(distance, cp, sy);
    Factor(distance * distance * (cp * cp), cy * cy, sy * sy);
    Factor(distance * distance, cp * cp, sp * sp);
  }

  lemma SquareOfProduct3(a: real, b: real, c: real)
    ensures (a * b * c) * (a * b * c) == a * a * (b * b) * (c * c)
  {
  }

  lemma SquareOfProduct2(a: real, b: real)
    ensures (a * b) * (a * b) == a * a * (b * b)
  {
  }

  lemma Factor(k: real, x: real, y: real)
    ensures k * x + k * y == k * (x + y)
  {
  }

  class Camera {
    var mode: CameraMode
    var position: V3.Vector3f
    var target: V3.Vector3f
    var up: V3.Vector3f
    var fov: real
    var aspectRatio: real
    var nearPlane: real
    var farPlane: real
    var orbitYaw: real
    var orbitPitch: real
    var orbitDistance: real
    var freeYaw: real
    var freePitch: real
    var mouseSensitivity: real
    var movementSpeed: real
    var zoomSensitivity: real

    /** new Camera(position, target, fov, aspect, near, far): FIXED, up
        (0, 1, 0), sensitivities 0.3, 10 and 0.2, and the orbit and free
        angles derived from position and target (orbit 0°/30° at distance
        100 and free -90°/0° when the two points coincide). */
    constructor(position: V3.Vector3f, target: V3.Vector3f, fov: real,
                aspectRatio: real, nearPlane: real, farPlane: real)
      ensures mode == FIXED && up == WORLD_UP
      ensures this.position == position && this.target == target
      ensures this.fov == fov && this.aspectRatio == aspectRatio
      ensures this.nearPlane == nearPlane && this.farPlane == farPlane
      ensures orbitDistance == OrbitDistance(position, target)
      ensures Angles(orbitYaw, orbitPitch) == OrbitAngles(position, target, Angles(0.0, 30.0))
      ensures Angles(freeYaw, freePitch) == FreeAngles(position, target, Angles(-90.0, 0.0))
      ensures mouseSensitivity == 0.3 && movementSpeed == 10.0 && zoomSensitivity == 0.2
    {
      mode := FIXED;
      this.position := position;
      this.target := target;
      up := WORLD_UP;
      this.fov, this.aspectRatio, this.nearPlane, this.farPlane := fov, aspectRatio, nearPlane, farPlane;
      orbitYaw, orbitPitch, orbitDistance := 0.0, 30.0, 100.0;
      freeYaw, freePitch := -90.0, 0.0;
      mouseSensitivity, movementSpeed, zoomSensitivity := 0.3, 10.0, 0.2;
      new;
      UpdateOrbitParametersFromPosition();
      UpdateFreeCameraAngles();
    }

    /** updateOrbitParametersFromPosition. */
    method UpdateOrbitParametersFromPosition()
      modifies this`orbitYaw, this`orbitPitch, this`orbitDistance
      ensures orbitDistance == OrbitDistance(position, target)
      ensures Angles(orbitYaw, orbitPitch) == OrbitAngles(position, target, Angles(old(orbitYaw), old(orbitPitch)))
    {
      var delta := V3.Subtract(position, target);
      orbitDistance := V3.Length(delta);
      if orbitDistance > 0.0 {
        var angles := SphericalAngles(delta);
        orbitYaw, orbitPitch := angles.yaw, angles.pitch;
      }
    }

    /** updateFreeCameraAngles. */
    method UpdateFreeCameraAngles()
      modifies this`freeYaw, this`freePitch
      ensures Angles(freeYaw, freePitch) == FreeAngles(position, target, Angles(old(freeYaw), old(freePitch)))
    {
      var direction := V3.Subtract(target, position);
      var length := V3.Length(direction);
      if length > 0.0 {
        var angles := SphericalAngles(direction);
        freeYaw, freePitch := angles.yaw, angles.pitch;
      }
    }

    /** setMode: entering ORBIT from another mode re-derives the orbit
        parameters, entering FREE_FLIGHT from another mode re-derives the
        free angles, and setting the current mode again changes nothing
        else. Position and target never move. */
    method SetMode(mode: CameraMode)
      modifies this`mode, this`orbitYaw, this`orbitPitch, this`orbitDistance, this`freeYaw, this`freePitch
      ensures this.mode == mode
      ensures mode == ORBIT && old(this.mode) != ORBIT ==>
                orbitDistance == OrbitDistance(position, target)
                && Angles(orbitYaw, orbitPitch) == OrbitAngles(position, target, Angles(old(orbitYaw), old(orbitPitch)))
      ensures !(mode == ORBIT && old(this.mode) != ORBIT) ==>
                orbitYaw == old(orbitYaw) && orbitPitch == old(orbitPitch) && orbitDistance == old(orbitDistance)
      ensures mode == FREE_FLIGHT && old(this.mode) != FREE_FLIGHT ==>
                Angles(freeYaw, freePitch) == FreeAngles(position, target, Angles(old(freeYaw), old(freePitch)))
      ensures !(mode == FREE_FLIGHT && old(this.mode) != FREE_FLIGHT) ==>
                freeYaw == old(freeYaw) && freePitch == old(freePitch)
    {
      var oldMode := this.mode;
      this.mode := mode;
      if mode == ORBIT && oldMode != ORBIT {
        UpdateOrbitParametersFromPosition();
      } else if mode == FREE_FLIGHT && oldMode != FREE_FLIGHT {
        UpdateFreeCameraAngles();
      }
    }

    /** processMouseMovement: nothing in FIXED; in ORBIT the orbit angles
        turn (pitch clamped to ±89°) and the camera moves around the fixed
        target; in FREE_FLIGHT the free angles turn (pitch clamped) and the
        target moves around the fixed position. */
    method ProcessMouseMovement(xoffset: real, yoffset: real)
      modifies this`orbitYaw, this`orbitPitch, this`freeYaw, this`freePitch, this`position, this`target
      ensures mode == FIXED ==>
                position == old(position) && target == old(target)
                && orbitYaw == old(orbitYaw) && orbitPitch == old(orbitPitch)
                && freeYaw == old(freeYaw) && freePitch == old(freePitch)
      ensures mode == ORBIT ==>
                target == old(target)
                && orbitYaw == old(orbitYaw) + xoffset * old(mouseSensitivity)
                && orbitPitch == Clamp(old(orbitPitch) + yoffset * old(mouseSensitivity), -MAX_PITCH, MAX_PITCH)
                && position == V3.Add(target, OrbitOffset(orbitYaw, orbitPitch, orbitDistance))
                && freeYaw == old(freeYaw) && freePitch == old(freePitch)
      ensures mode == FREE_FLIGHT ==>
                position == old(position)
                && freeYaw == old(freeYaw) + xoffset * old(mouseSensitivity)
                && freePitch == Clamp(old(freePitch) + yoffset * old(mouseSensitivity), -MAX_PITCH, MAX_PITCH)
                && target == FreeTarget(position, freeYaw, freePitch)
                && orbitYaw == old(orbitYaw) && orbitPitch == old(orbitPitch)
      ensures mode == ORBIT ==> -MAX_PITCH <= orbitPitch <= MAX_PITCH
      ensures mode == FREE_FLIGHT ==> -MAX_PITCH <= freePitch <= MAX_PITCH
    {
      if mode == FIXED {
        return;
      }
      var dx := xoffset * mouseSensitivity;
      var dy := yoffset * mouseSensitivity;
      if mode == ORBIT {
        orbitYaw := orbitYaw + dx;
        orbitPitch := orbitPitch + dy;
        if orbitPitch > MAX_PITCH {
          orbitPitch := MAX_PITCH;
        }
        if orbitPitch < -MAX_PITCH {
          orbitPitch := -MAX_PITCH;
        }
        UpdateOrbitCameraPosition();
      } else if mode == FREE_FLIGHT {
        freeYaw := freeYaw + dx;
        freePitch := freePitch + dy;
        if freePitch > MAX_PITCH {
          freePitch := MAX_PITCH;
        }
        if freePitch < -MAX_PITCH {
          freePitch := -MAX_PITCH;
        }
        UpdateFreeCameraTarget();
      }
    }

    /** updateOrbitCameraPosition: the camera on the orbit sphere, the
        target kept. */
    method UpdateOrbitCameraPosition()
      modifies this`position
      ensures position == V3.Add(target, OrbitOffset(orbitYaw, orbitPitch, orbitDistance))
    {
      position := V3.Add(target, OrbitOffset(orbitYaw, orbitPitch, orbitDistance));
    }

    /** updateFreeCameraTarget: the target ten units ahead, the position
        kept. */
    method UpdateFreeCameraTarget()
      modifies this`target
      ensures target == FreeTarget(position, freeYaw, freePitch)
    {
      var direction := FreeDirection(freeYaw, freePitch);
      target := V3.Add(position, V3.Multiply(direction, FREE_TARGET_DISTANCE));
    }

    /** processKeyboard: only in FREE_FLIGHT, a step of movementSpeed ·
        deltaTime along the chosen axis, after which the target is put ten
        units ahead again; the angles do not change. */
    method ProcessKeyboard(direction: CameraMovement, deltaTime: real)
      modifies this`position, this`target
      ensures mode != FREE_FLIGHT ==> position == old(position) && target == old(target)
      ensures mode == FREE_FLIGHT ==>
                position == KeyboardStep(old(position), old(target), old(up), direction, old(movementSpeed) * deltaTime)
                && target == FreeTarget(position, freeYaw, freePitch)
    {
      if mode != FREE_FLIGHT {
        return;
      }
      var velocity := movementSpeed * deltaTime;
      position := KeyboardStep(position, target, up, direction, velocity);
      UpdateFreeCameraTarget();
    }

    /** processMouseScroll: nothing in FIXED; in ORBIT the distance shrinks
        by deltaY · zoomSensitivity, clamped to [1, 500], and the camera
        moves on the orbit; in FREE_FLIGHT the field of view does, clamped
        to [1, 120], and neither position nor target moves. */
    method ProcessMouseScroll(deltaY: real)
      modifies this`orbitDistance, this`position, this`fov
      ensures mode != ORBIT ==> position == old(position) && orbitDistance == old(orbitDistance)
      ensures mode != FREE_FLIGHT ==> fov == old(fov)
      ensures mode == ORBIT ==>
                orbitDistance == Clamp(old(orbitDistance) - deltaY * old(zoomSensitivity), MIN_ORBIT_DISTANCE, MAX_ORBIT_DISTANCE)
                && position == V3.Add(target, OrbitOffset(orbitYaw, orbitPitch, orbitDistance))
      ensures mode == FREE_FLIGHT ==> fov == Clamp(old(fov) - deltaY * old(zoomSensitivity), MIN_FOV, MAX_FOV)
    {
      if mode == FIXED {
        return;
      }
      if mode == ORBIT {
        var zoomChange := deltaY * zoomSensitivity;
        orbitDistance := orbitDistance - zoomChange;
        if orbitDistance < MIN_ORBIT_DISTANCE {
          orbitDistance := MIN_ORBIT_DISTANCE;
        }
        if orbitDistance > MAX_ORBIT_DISTANCE {
          orbitDistance := MAX_ORBIT_DISTANCE;
        }
        UpdateOrbitCameraPosition();
      } else if mode == FREE_FLIGHT {
        var fovChange := deltaY * zoomSensitivity;
        fov := fov - fovChange;
        if fov < MIN_FOV {
          fov := MIN_FOV;
        }
        if fov > MAX_FOV {
          fov := MAX_FOV;
        }
      }
    }

    /** setPosition: the new position, then the orbit parameters (ORBIT) or
        the free angles (FREE_FLIGHT) are re-derived. */
    method SetPosition(position: V3.Vector3f)
      modifies this`position, this`orbitYaw, this`orbitPitch, this`orbitDistance, this`freeYaw, this`freePitch
      ensures this.position == position
      ensures mode == ORBIT ==>
                orbitDistance == OrbitDistance(position, target)
                && Angles(orbitYaw, orbitPitch) == OrbitAngles(position, target, Angles(old(orbitYaw), old(orbitPitch)))
      ensures mode != ORBIT ==> orbitYaw == old(orbitYaw) && orbitPitch == old(orbitPitch) && orbitDistance == old(orbitDistance)
      ensures mode == FREE_FLIGHT ==>
                Angles(freeYaw, freePitch) == FreeAngles(position, target, Angles(old(freeYaw), old(freePitch)))
      ensures mode != FREE_FLIGHT ==> freeYaw == old(freeYaw) && freePitch == old(freePitch)
    {
      this.position := position;
      RederiveAngles();
    }

    /** setTarget: the new target, then the same re-derivation. */
    method SetTarget(target: V3.Vector3f)
      modifies this`target, this`orbitYaw, this`orbitPitch, this`orbitDistance, this`freeYaw, this`freePitch
      ensures this.target == target
      ensures mode == ORBIT ==>
                orbitDistance == OrbitDistance(position, target)
                && Angles(orbitYaw, orbitPitch) == OrbitAngles(position, target, Angles(old(orbitYaw), old(orbitPitch)))
      ensures mode != ORBIT ==> orbitYaw == old(orbitYaw) && orbitPitch == old(orbitPitch) && orbitDistance == old(orbitDistance)
      ensures mode == FREE_FLIGHT ==>
                Angles(freeYaw, freePitch) == FreeAngles(position, target, Angles(old(freeYaw), old(freePitch)))
      ensures mode != FREE_FLIGHT ==> freeYaw == old(freeYaw) && freePitch == old(freePitch)
    {
      this.target := target;
      RederiveAngles();
    }

    /** The mode switch that setPosition and setTarget share. */
    method RederiveAngles()
      modifies this`orbitYaw, this`orbitPitch, this`orbitDistance, this`freeYaw, this`freePitch
      ensures mode == ORBIT ==>
                orbitDistance == OrbitDistance(position, target)
                && Angles(orbitYaw, orbitPitch) == OrbitAngles(position, target, Angles(old(orbitYaw), old(orbitPitch)))
      ensures mode != ORBIT ==> orbitYaw == old(orbitYaw) && orbitPitch == old(orbitPitch) && orbitDistance == old(orbitDistance)
      ensures mode == FREE_FLIGHT ==>
                Angles(freeYaw, freePitch) == FreeAngles(position, target, Angles(old(freeYaw), old(freePitch)))
      ensures mode != FREE_FLIGHT ==> freeYaw == old(freeYaw) && freePitch == old(freePitch)
    {
      if mode == ORBIT {
        UpdateOrbitParametersFromPosition();
      } else if mode == FREE_FLIGHT {
        UpdateFreeCameraAngles();
      }
    }

    /** movePosition(d): position and target both move by d in every mode,
        so the viewing offset is kept and no angle is re-derived. */
    method MovePosition(translation: V3.Vector3f)
      modifies this`position, this`target
      ensures position == V3.Add(old(position), translation) && target == V3.Add(old(target), translation)
      ensures V3.Subtract(target, position) == V3.Subtract(old(target), old(position))
    {
      position := V3.Add(position, translation);
      target := V3.Add(target, translation);
    }

    /** moveTarget(d): the target moves by d; only ORBIT re-derives its
        parameters. */
    method MoveTarget(translation: V3.Vector3f)
      modifies this`target, this`orbitYaw, this`orbitPitch, this`orbitDistance
      ensures target == V3.Add(old(target), translation)
      ensures mode == ORBIT ==>
                orbitDistance == OrbitDistance(position, target)
                && Angles(orbitYaw, orbitPitch) == OrbitAngles(position, target, Angles(old(orbitYaw), old(orbitPitch)))
      ensures mode != ORBIT ==> orbitYaw == old(orbitYaw) && orbitPitch == old(orbitPitch) && orbitDistance == old(orbitDistance)
    {
      target := V3.Add(target, translation);
      if mode == ORBIT {
        UpdateOrbitParametersFromPosition();
      }
    }

    /** setAspectRatio and setFov store the value; nothing is re-derived. */
    method SetAspectRatio(aspectRatio: real)
      modifies this`aspectRatio
      ensures this.aspectRatio == aspectRatio
    {
      this.aspectRatio := aspectRatio;
    }

    method SetFov(fov: real)
      modifies this`fov
      ensures this.fov == fov
    {
      this.fov := fov;
    }
  }
}
