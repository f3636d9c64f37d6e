/**
 * The perspective control as the object it is: fields that the event
 * handlers overwrite and that the frame update advances. Every method is
 * proved to move the object's `Snapshot()` exactly as the matching
 * transition of module Interaction does, and to keep `Valid()`.
 *
 * The camera is reduced to its field of view `fov`.
 */
module Controls {
  import opened Interaction

  class PerspectiveControl {
    var movement: Vec
    var mouse: Vec
    var fov: real
    var cameraTargetAngle: Angle
    const radius: real
    var isUserInteractive: bool
    var multiTouchMode: bool
    var lastPoints: seq<TouchPoint>
    var isUseKey: bool
    var onKeyLeft: bool
    var onKeyRight: bool
    var onKeyUp: bool
    var onKeyDown: bool
    var onKeyShift: bool

    /** The object's fields as a value of the model. */
    function Snapshot(): ControlState
      reads this
    {
      ControlState(movement, mouse, fov, cameraTargetAngle, radius, isUserInteractive,
                   multiTouchMode, lastPoints, isUseKey,
                   Keys(onKeyLeft, onKeyRight, onKeyUp, onKeyDown, onKeyShift))
    }

    ghost predicate Valid()
      reads this
    {
      Inv(Snapshot())
    }

    /** A camera with field of view 75, looking at angle (0, 0); no input yet. */
    constructor (radius: real)
      ensures Valid()
      ensures Snapshot() == Initial(radius)
    {
      this.radius := radius;
      movement, mouse := Vec(0.0, 0.0), Vec(0.0, 0.0);
      fov := InitialFov;
      cameraTargetAngle := Angle(0.0, 0.0);
      isUserInteractive, multiTouchMode := false, false;
      lastPoints := [];
      isUseKey := false;
      onKeyLeft, onKeyRight, onKeyUp, onKeyDown, onKeyShift := false, false, false, false, false;
    }

    method OnDocumentMouseWheel(deltaY: real)
      requires Valid()
      modifies this
      ensures Valid()
      ensures Snapshot() == Wheel(old(Snapshot()), deltaY)
    {
      var f := fov + deltaY * WheelZoomFactor;
      if f > MaxFov {
        f := MaxFov;
      }
      if f < MinFov {
        f := MinFov;
      }
      fov := f;
    }

    method OnDocumentMouseMove(env: Env, movementX: real, movementY: real, clientX: real, clientY: real)
      requires Valid()
      requires isUserInteractive ==> WindowOk(env)
      modifies this
      ensures Valid()
      ensures Snapshot() == MouseMove(old(Snapshot()), env, movementX, movementY, clientX, clientY)
    {
      if !isUserInteractive {
        return;
      }
      movement := Vec(movementX * radius / MouseMoveDivisor, movementY * radius / MouseMoveDivisor);
      mouse := DeviceCoords(env, clientX, clientY);
    }

    method OnDocumentMouseDown()
      requires Valid()
      modifies this
      ensures Valid()
      ensures Snapshot() == MouseDown(old(Snapshot()))
    {
      isUserInteractive := true;
    }

    method OnDocumentMouseUp()
      requires Valid()
      modifies this
      ensures Valid()
      ensures Snapshot() == MouseUp(old(Snapshot()))
    {
      isUserInteractive := false;
      movement := Vec(0.0, 0.0);
      mouse := Vec(0.0, 0.0);
    }

    /** Rebuilds the stored points by appending a copy of each touch in turn. */
    method OnDocumentTouchStart(touches: seq<TouchPoint>)
      requires Valid()
      modifies this
      ensures Valid()
      ensures Snapshot() == TouchStart(old(Snapshot()), touches)
    {
      multiTouchMode := |touches| > 1;
      isUserInteractive := true;
      lastPoints := [];
      for i := 0 to |touches|
        invariant Snapshot() == old(Snapshot()).(multiTouchMode := |touches| > 1,
                                                isUserInteractive := true,
                                                lastPoints := touches[..i])
      {
        lastPoints := lastPoints + [TouchPoint(touches[i].pageX, touches[i].pageY)];
        assert touches[..i + 1] == touches[..i] + [touches[i]];
      }
      assert touches[..|touches|] == touches;
    }

    /**
     * One finger: the last touch replaces the first stored point in place and
     * the movement is measured from it. Several fingers: the pinch scale
     * against the stored points adjusts the field of view. With fewer than two
     * touches in multi-touch mode the handler throws before writing anything,
     * which `thrown` reports.
     */
    method OnDocumentTouchMove(env: Env, touches: seq<TouchPoint>) returns (thrown: bool)
      requires Valid()
      requires TouchMoveOk(Snapshot(), env, touches)
      modifies this
      ensures Valid()
      ensures thrown <==> TouchMoveThrows(old(Snapshot()), touches)
      ensures Snapshot() == TouchMove(old(Snapshot()), env, touches)
    {
      thrown := false;
      if !multiTouchMode {
        var lastPoint := lastPoints[0];
        var currentPoint := touches[|touches| - 1];
        lastPoints := lastPoints[0 := currentPoint];
        movement := Vec(currentPoint.pageX - lastPoint.pageX, currentPoint.pageY - lastPoint.pageY);
        mouse := DeviceCoords(env, currentPoint.pageX, currentPoint.pageY);
      } else {
        if |touches| < 2 {
          thrown := true;
          return;
        }
        var scale := PinchScale(Snapshot(), env, touches);
        var f := fov + scale;
        if f > MaxFov {
          f := MaxFov;
        }
        if f < MinFov {
          f := MinFov;
        }
        fov := f;
      }
    }

    method OnDocumentTouchEnd()
      requires Valid()
      modifies this
      ensures Valid()
      ensures Snapshot() == TouchEnd(old(Snapshot()))
    {
      multiTouchMode := false;
      isUserInteractive := false;
      lastPoints := [];
      movement := Vec(0.0, 0.0);
      mouse := Vec(0.0, 0.0);
    }

    method OnDocumentKeyDown(code: int)
      requires Valid()
      modifies this
      ensures Valid()
      ensures Snapshot() == KeyDown(old(Snapshot()), code)
    {
      if code == 65 || code == 37 {
        onKeyLeft := true;
        onKeyRight := false;
      } else if code == 68 || code == 39 {
        onKeyRight := true;
        onKeyLeft := false;
      } else if code == 87 || code == 38 {
        onKeyUp := true;
        onKeyDown := false;
      } else if code == 83 || code == 40 {
        onKeyDown := true;
        onKeyUp := false;
      } else if code == 16 {
        onKeyShift := true;
      }
      isUseKey := onKeyLeft || onKeyRight || onKeyUp || onKeyDown;
      isUserInteractive := true;
    }

    method OnDocumentKeyUp(code: int)
      requires Valid()
      modifies this
      ensures Valid()
      ensures Snapshot() == KeyUp(old(Snapshot()), code)
    {
      if code == 65 || code == 37 {
        onKeyLeft := false;
      } else if code == 68 || code == 39 {
        onKeyRight := false;
      } else if code == 87 || code == 38 {
        onKeyUp := false;
      } else if code == 83 || code == 40 {
        onKeyDown := false;
      } else if code == 16 {
        onKeyShift := false;
      }
      isUseKey := onKeyLeft || onKeyRight || onKeyUp || onKeyDown;
      isUserInteractive := isUseKey || onKeyShift;
    }

    method ConvertDistanceToAngle()
      requires Valid()
      requires radius != 0.0
      modifies this
      ensures Valid()
      ensures Snapshot() == old(Snapshot()).(angle := DragAngle(old(cameraTargetAngle), movement, radius))
    {
      cameraTargetAngle := cameraTargetAngle.(lng := cameraTargetAngle.lng - movement.x / radius * AngleFactor);
      cameraTargetAngle := cameraTargetAngle.(lat := cameraTargetAngle.lat + movement.y / radius * AngleFactor);
    }

    method UpdateKeyAngle()
      requires Valid()
      modifies this
      ensures Valid()
      ensures Snapshot() == old(Snapshot()).(angle := KeyAngle(old(cameraTargetAngle), Snapshot().keys))
    {
      var dlat := 1.0;
      var dlng := 1.0;
      if onKeyShift {
        dlat := 5.0;
        dlng := 5.0;
      }
      if onKeyDown {
        cameraTargetAngle := cameraTargetAngle.(lat := cameraTargetAngle.lat + dlat * AngleFactor);
      }
      if onKeyUp {
        cameraTargetAngle := cameraTargetAngle.(lat := cameraTargetAngle.lat - dlat * AngleFactor);
      }
      if onKeyLeft {
        cameraTargetAngle := cameraTargetAngle.(lng := cameraTargetAngle.lng - dlng * AngleFactor);
      }
      if onKeyRight {
        cameraTargetAngle := cameraTargetAngle.(lng := cameraTargetAngle.lng + dlng * AngleFactor);
      }
    }

    /** The once-per-frame update; returns the new target angle. */
    method Update() returns (angle: Angle)
      requires Valid()
      requires UpdateOk(Snapshot())
      modifies this
      ensures Valid()
      ensures Snapshot() == Interaction.Update(old(Snapshot()))
      ensures angle == cameraTargetAngle
    {
      if isUserInteractive {
        if isUseKey {
          UpdateKeyAngle();
        } else if !multiTouchMode {
          ConvertDistanceToAngle();
        }
      }
      angle := cameraTargetAngle;
    }
  }
}
