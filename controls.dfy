/** The event handlers of src/controls.js: the pointer drag machine that
    orbits the camera around the object, the wheel zoom and the keyboard
    light controller. Each reads and updates the shared store.

    A handler that reaches state.latheMesh.geometry while there is no mesh
    throws a TypeError at that point; what it changed before stays changed
    and the rest is skipped, which is how the methods model it. The
    spherical/Cartesian conversions of THREE.Spherical and the vector length
    are parameters. */
module Controls {
  import opened Numbers
  import opened Vectors
  import opened Scene
  import opened Lathe

  /** A THREE.Spherical: radius, polar angle phi from +y, azimuth theta. */
  datatype Spherical = Spherical(radius: real, phi: real, theta: real)

  /** The polar range the orbit keeps the camera in, away from the poles. */
  predicate PolarInRange(phi: real) {
    0.1 <= phi <= PI - 0.1
  }

  /** The orbit step of drag for a pointer move of (dx, dy) pixels: the
      azimuth turns by -0.01 per pixel across, the polar angle by -0.01 per
      pixel down, clamped into its range; the radius is carried over. */
  function OrbitStep(s: Spherical, dx: real, dy: real): (r: Spherical)
    ensures r.radius == s.radius
    ensures r.theta == s.theta - 0.01 * dx
    ensures PolarInRange(r.phi)
    ensures PolarInRange(s.phi - 0.01 * dy) ==> r.phi == s.phi - 0.01 * dy
  {
    Spherical(s.radius, Clamp(s.phi - dy * 0.01, 0.1, PI - 0.1), s.theta - dx * 0.01)
  }

  /** A drag of 100 pixels straight across turns the azimuth by exactly -1
      radian and leaves the radius and an in-range polar angle alone. */
  lemma HorizontalDrag(s: Spherical)
    requires PolarInRange(s.phi)
    ensures OrbitStep(s, 100.0, 0.0) == Spherical(s.radius, s.phi, s.theta - 1.0)
  {
  }

  /** Two moves across add up: the orbit cannot tell them from one move by
      the summed distance. */
  lemma {:induction false} HorizontalDragsAdd(s: Spherical, dx1: real, dx2: real)
    requires PolarInRange(s.phi)
    ensures OrbitStep(OrbitStep(s, dx1, 0.0), dx2, 0.0) == OrbitStep(s, dx1 + dx2, 0.0)
  {
    var once := OrbitStep(s, dx1, 0.0);
    assert once.phi == s.phi;
  }

  /** Where drag puts the camera: the orbit step applied to the camera's
      offset from the centre, converted back and moved onto the centre. */
  function DragCamera(camera: Vec3, center: Vec3, dx: real, dy: real,
                      toSpherical: Vec3 -> Spherical, fromSpherical: Spherical -> Vec3): Vec3
  {
    Add(fromSpherical(OrbitStep(toSpherical(Sub(camera, center)), dx, dy)), center)
  }

  /** When the conversions keep the radius, a drag leaves the camera's
      distance from the centre unchanged. */
  lemma DragKeepsDistance(camera: Vec3, center: Vec3, dx: real, dy: real,
                          toSpherical: Vec3 -> Spherical, fromSpherical: Spherical -> Vec3, length: Vec3 -> real)
    requires toSpherical(Sub(camera, center)).radius == length(Sub(camera, center))
    requires var s := OrbitStep(toSpherical(Sub(camera, center)), dx, dy);
      length(fromSpherical(s)) == s.radius
    ensures length(Sub(DragCamera(camera, center, dx, dy, toSpherical, fromSpherical), center))
         == length(Sub(camera, center))
  {
    var v := fromSpherical(OrbitStep(toSpherical(Sub(camera, center)), dx, dy));
    assert Sub(Add(v, center), center) == v;
  }

  /** The drag machine on its own: whether a drag is in progress and the
      last recorded pointer position. */
  datatype Pointer = Pointer(dragging: bool, previous: MousePosition)

  /** The pointer events the machine reacts to. */
  datatype PointerEvent = Down(x: real, y: real) | Move(x: real, y: real) | Up

  /** One event: a press starts a drag at its position, a release ends it
      and keeps the position, a move records its position only while
      dragging and a mesh is there (without one drag throws first). */
  function PointerStep(p: Pointer, e: PointerEvent, hasMesh: bool): (r: Pointer)
    ensures e.Down? ==> r.dragging
    ensures e.Up? ==> !r.dragging && r.previous == p.previous
    ensures e.Move? ==> r.dragging == p.dragging
    ensures e.Move? && !p.dragging ==> r == p
  {
    match e
    case Down(x, y) => Pointer(true, MousePosition(x, y))
    case Up => p.(dragging := false)
    case Move(x, y) => if p.dragging && hasMesh then p.(previous := MousePosition(x, y)) else p
  }

  /** A run of events, in order. */
  function Replay(p: Pointer, es: seq<PointerEvent>, hasMesh: bool): Pointer
    decreases |es|
  {
    if es == [] then p else Replay(PointerStep(p, es[0], hasMesh), es[1..], hasMesh)
  }

  /** Replaying a + b is replaying a, then b. */
  lemma {:induction false} ReplayAppend(p: Pointer, a: seq<PointerEvent>, b: seq<PointerEvent>, hasMesh: bool)
    ensures Replay(p, a + b, hasMesh) == Replay(Replay(p, a, hasMesh), b, hasMesh)
    decreases |a|
  {
    if a == [] {
      assert a + b == b;
    } else {
      assert (a + b)[0] == a[0];
      assert (a + b)[1..] == a[1..] + b;
      ReplayAppend(PointerStep(p, a[0], hasMesh), a[1..], b, hasMesh);
    }
  }

  /** Moves while no drag is in progress change nothing. */
  lemma {:induction false} IdleMovesIgnored(p: Pointer, es: seq<PointerEvent>, hasMesh: bool)
    requires !p.dragging
    requires forall i :: 0 <= i < |es| ==> es[i].Move?
    ensures Replay(p, es, hasMesh) == p
    decreases |es|
  {
    if es != [] {
      assert forall i :: 0 <= i < |es[1..]| ==> es[1..][i] == es[i + 1];
      IdleMovesIgnored(PointerStep(p, es[0], hasMesh), es[1..], hasMesh);
    }
  }

  /** During a drag over a mesh, the machine stays dragging and remembers the
      position of the last move. */
  lemma {:induction false} DraggingTracksLastMove(p: Pointer, es: seq<PointerEvent>)
    requires p.dragging
    requires |es| > 0 && forall i :: 0 <= i < |es| ==> es[i].Move?
    ensures var q := Replay(p, es, true);
      q.dragging && q.previous == MousePosition(es[|es| - 1].x, es[|es| - 1].y)
    decreases |es|
  {
    var next := PointerStep(p, es[0], true);
    if |es| > 1 {
      assert forall i :: 0 <= i < |es[1..]| ==> es[1..][i] == es[i + 1];
      DraggingTracksLastMove(next, es[1..]);
      assert es[1..][|es[1..]| - 1] == es[|es| - 1];
    }
  }

  /** A press, any moves and a release leave the machine idle; later moves
      are ignored until the next press. */
  lemma PressMovesRelease(p: Pointer, x: real, y: real, moves: seq<PointerEvent>, after: seq<PointerEvent>, hasMesh: bool)
    requires forall i :: 0 <= i < |after| ==> after[i].Move?
    ensures var q := Replay(p, [Down(x, y)] + moves + [Up] + after, hasMesh);
      !q.dragging && q == Replay(p, [Down(x, y)] + moves + [Up], hasMesh)
  {
    var run := [Down(x, y)] + moves + [Up];
    ReplayAppend(p, [Down(x, y)] + moves, [Up], hasMesh);
    ReplayAppend(p, run, after, hasMesh);
    var q := Replay(p, run, hasMesh);
    assert Replay(Replay(p, [Down(x, y)] + moves, hasMesh), [Up], hasMesh)
        == PointerStep(Replay(p, [Down(x, y)] + moves, hasMesh), Up, hasMesh);
    IdleMovesIgnored(q, after, hasMesh);
  }

  /** The drag machine's fields of the store. */
  function PointerOf(st: State): Pointer
    reads st
  {
    Pointer(st.isDragging, st.previousMousePosition)
  }

  /** startDrag: a drag begins at the event's position. */
  method StartDrag(st: State, clientX: real, clientY: real)
    requires st.Valid()
    modifies st`isDragging, st`previousMousePosition
    ensures st.Valid()
    ensures st.isDragging && st.previousMousePosition == MousePosition(clientX, clientY)
    ensures PointerOf(st) == PointerStep(old(PointerOf(st)), Down(clientX, clientY), st.latheMesh != null)
  {
    st.isDragging := true;
    st.previousMousePosition := MousePosition(clientX, clientY);
  }

  /** stopDrag: the drag ends; the last position is kept. */
  method StopDrag(st: State)
    requires st.Valid()
    modifies st`isDragging
    ensures st.Valid()
    ensures !st.isDragging && st.previousMousePosition == old(st.previousMousePosition)
    ensures PointerOf(st) == PointerStep(old(PointerOf(st)), Up, st.latheMesh != null)
  {
    st.isDragging := false;
  }

  /** drag: while dragging over a mesh, orbits the camera about the object
      centre by the pointer's movement since the last event, aims it at the
      centre and records the new position; otherwise changes nothing. */
  method Drag(st: State, clientX: real, clientY: real,
              toSpherical: Vec3 -> Spherical, fromSpherical: Spherical -> Vec3)
    requires st.Valid()
    modifies st`cameraPosition, st`cameraTarget, st`previousMousePosition
    ensures st.Valid()
    ensures PointerOf(st) == PointerStep(old(PointerOf(st)), Move(clientX, clientY), st.latheMesh != null)
    ensures !old(st.isDragging) || st.latheMesh == null ==>
      st.cameraPosition == old(st.cameraPosition) && st.cameraTarget == old(st.cameraTarget)
    ensures old(st.isDragging) && st.latheMesh != null ==>
      var c := AxisCenter(st.latheMesh.geometry.boundingBox);
      && st.cameraPosition == DragCamera(old(st.cameraPosition), c, clientX - old(st.previousMousePosition.x),
                                         clientY - old(st.previousMousePosition.y), toSpherical, fromSpherical)
      && st.cameraTarget == Some(c)
  {
    var latheMesh := st.latheMesh;
    if st.isDragging {
      var deltaX := clientX - st.previousMousePosition.x;
      var deltaY := clientY - st.previousMousePosition.y;
      if latheMesh == null {
        return;
      }
      var center := GetObjectCenter(latheMesh.geometry);
      var spherical := toSpherical(Sub(st.cameraPosition, center));
      spherical := spherical.(theta := spherical.theta - deltaX * 0.01);
      spherical := spherical.(phi := spherical.phi - deltaY * 0.01);
      spherical := spherical.(phi := Max(0.1, Min(PI - 0.1, spherical.phi)));
      st.cameraPosition := Add(fromSpherical(spherical), center);
      st.cameraTarget := Some(center);
      st.previousMousePosition := MousePosition(clientX, clientY);
    }
  }

  /** The distance zoom asks for: the current distance moved by
      deltaY * 0.001 * maxSize and clamped into [0.5 maxSize, 5 maxSize]. */
  function ZoomDistance(current: real, deltaY: real, maxSize: real): (r: real)
    ensures maxSize >= 0.0 ==> 0.5 * maxSize <= r <= 5.0 * maxSize
    ensures 0.5 * maxSize <= current + deltaY * 0.001 * maxSize <= 5.0 * maxSize ==>
      r == current + deltaY * 0.001 * maxSize
  {
    Clamp(current + deltaY * 0.001 * maxSize, maxSize * 0.5, maxSize * 5.0)
  }

  /** A wheel step of -1000 on an object whose largest dimension is 10 brings
      the camera exactly 10 closer whenever that stays within [5, 50]. */
  lemma WheelTowards(current: real)
    requires 15.0 <= current <= 60.0
    ensures ZoomDistance(current, -1000.0, 10.0) == current - 10.0
  {
  }

  /** Scrolling further never zooms less: the distance is monotone in deltaY. */
  lemma ZoomMonotone(current: real, d1: real, d2: real, maxSize: real)
    requires d1 <= d2 && maxSize >= 0.0
    ensures ZoomDistance(current, d1, maxSize) <= ZoomDistance(current, d2, maxSize)
  {
    var z1, z2 := d1 * 0.001 * maxSize, d2 * 0.001 * maxSize;
    assert z2 - z1 == (d2 - d1) * 0.001 * maxSize;
    assert (d2 - d1) * 0.001 * maxSize >= 0.0;
    ClampMonotone(current + z1, current + z2, maxSize * 0.5, maxSize * 5.0);
  }

  /** The distance after a run of wheel events, each starting from where the
      last left the camera. */
  function Zooms(current: real, deltas: seq<real>, maxSize: real): real
    decreases |deltas|
  {
    if deltas == [] then current else Zooms(ZoomDistance(current, deltas[0], maxSize), deltas[1..], maxSize)
  }

  /** After at least one wheel event the distance is in range, and it stays
      there under any further events. */
  lemma {:induction false} ZoomsInRange(current: real, deltas: seq<real>, maxSize: real)
    requires maxSize >= 0.0
    requires |deltas| > 0 || 0.5 * maxSize <= current <= 5.0 * maxSize
    ensures 0.5 * maxSize <= Zooms(current, deltas, maxSize) <= 5.0 * maxSize
    decreases |deltas|
  {
    if deltas != [] {
      ZoomsInRange(ZoomDistance(current, deltas[0], maxSize), deltas[1..], maxSize);
    }
  }

  /** direction.normalize(): divides by the length, or by 1 when the length
      is 0, so that a zero-length vector is left as it is. */
  function Normalize(v: Vec3, length: Vec3 -> real): (r: Vec3)
    ensures length(v) == 0.0 ==> r == v
  {
    Scale(v, 1.0 / (if length(v) == 0.0 then 1.0 else length(v)))
  }

  /** Where zoom puts the camera: on the ray from the centre through the
      camera, at the clamped distance. */
  function ZoomCamera(camera: Vec3, center: Vec3, deltaY: real, maxSize: real, length: Vec3 -> real): Vec3 {
    var direction := Sub(camera, center);
    Add(Scale(Normalize(direction, length), ZoomDistance(length(direction), deltaY, maxSize)), center)
  }

  /** With a length that scales with its vector, a camera off the centre
      stays on its ray from the centre, moved to exactly the clamped
      distance. */
  lemma ZoomReachesDistance(camera: Vec3, center: Vec3, deltaY: real, maxSize: real, length: Vec3 -> real)
    requires length(Sub(camera, center)) > 0.0
    requires maxSize >= 0.0
    requires forall k :: k >= 0.0 ==> length(Scale(Sub(camera, center), k)) == k * length(Sub(camera, center))
    ensures length(Sub(ZoomCamera(camera, center, deltaY, maxSize, length), center))
         == ZoomDistance(length(Sub(camera, center)), deltaY, maxSize)
    ensures var len := length(Sub(camera, center));
      Sub(ZoomCamera(camera, center, deltaY, maxSize, length), center)
        == Scale(Sub(camera, center), ZoomDistance(len, deltaY, maxSize) / len)
  {
    var direction := Sub(camera, center);
    var len := length(direction);
    var d := ZoomDistance(len, deltaY, maxSize);
    ZoomOnRay(camera, center, deltaY, maxSize, length);
    assert d / len >= 0.0;
    assert length(Scale(direction, d / len)) == (d / len) * len;
  }

  /** A camera off the centre is moved along its ray from the centre, by
      the ratio of the clamped distance to its present one. */
  lemma ZoomOnRay(camera: Vec3, center: Vec3, deltaY: real, maxSize: real, length: Vec3 -> real)
    requires length(Sub(camera, center)) > 0.0
    ensures var len := length(Sub(camera, center));
      Sub(ZoomCamera(camera, center, deltaY, maxSize, length), center)
        == Scale(Sub(camera, center), ZoomDistance(len, deltaY, maxSize) / len)
  {
    var direction := Sub(camera, center);
    var len := length(direction);
    assert Normalize(direction, length) == Scale(direction, 1.0 / len);
    RescaleAboutCenter(direction, center, len, ZoomDistance(len, deltaY, maxSize));
  }

  /** Moving to d times the unit direction and back off the centre is
      scaling the offset by d / len. */
  lemma RescaleAboutCenter(direction: Vec3, center: Vec3, len: real, d: real)
    requires len != 0.0
    ensures Sub(Add(Scale(Scale(direction, 1.0 / len), d), center), center) == Scale(direction, d / len)
  {
    var moved := Scale(Scale(direction, 1.0 / len), d);
    assert Sub(Add(moved, center), center) == moved;
    ScaleTwice(direction, 1.0 / len, d);
    assert 1.0 / len * d == d / len;
  }

  /** zoom: moves the camera along its ray from the object centre to the
      clamped distance and aims it at the centre; without a mesh it throws
      before changing anything. */
  method Zoom(st: State, deltaY: real, length: Vec3 -> real)
    requires st.Valid()
    modifies st`cameraPosition, st`cameraTarget
    ensures st.Valid()
    ensures st.latheMesh == null ==>
      st.cameraPosition == old(st.cameraPosition) && st.cameraTarget == old(st.cameraTarget)
    ensures st.latheMesh != null ==>
      var b := st.latheMesh.geometry.boundingBox;
      && st.cameraPosition == ZoomCamera(old(st.cameraPosition), AxisCenter(b), deltaY, MaxDim(b), length)
      && st.cameraTarget == Some(AxisCenter(b))
  {
    var latheMesh := st.latheMesh;
    if latheMesh == null {
      return;
    }
    var center := GetObjectCenter(latheMesh.geometry);
    var direction := Sub(st.cameraPosition, center);
    var currentDistance := length(direction);
    var size := Size(latheMesh.geometry.boundingBox);
    var maxSize := Max3(size.x, size.y, size.z);
    var minDistance := maxSize * 0.5;
    var maxDistance := maxSize * 5.0;
    var zoomDelta := deltaY * 0.001 * maxSize;
    var newDistance := currentDistance + zoomDelta;
    var clampedDistance := Max(minDistance, Min(maxDistance, newDistance));
    var normalizedDirection := Scale(direction, 1.0 / (if currentDistance == 0.0 then 1.0 else currentDistance));
    assert maxSize == MaxDim(latheMesh.geometry.boundingBox);
    assert clampedDistance == ZoomDistance(currentDistance, deltaY, maxSize);
    assert normalizedDirection == Normalize(direction, length);
    st.cameraPosition := Add(Scale(normalizedDirection, clampedDistance), center);
    st.cameraTarget := Some(center);
  }

  /** The light controller's fields of the store. */
  datatype LightSettings = LightSettings(phi: real, theta: real, intensity: real)

  /** The ranges the controller keeps: the polar angle away from the poles,
      the intensity within [0, 5]. */
  predicate LightInRange(l: LightSettings) {
    PolarInRange(l.phi) && 0.0 <= l.intensity <= 5.0
  }

  /** The keys lightControl reacts to. */
  const LightKeys: set<string> := {"ArrowDown", "ArrowUp", "ArrowRight", "ArrowLeft", "+", "-"}

  /** The settings after one key: the polar angle steps by 0.1 within its
      range, the azimuth by 0.1 without bound, the intensity by 0.1 within
      [0, 5]; any other key is ignored (None). */
  function KeyStep(l: LightSettings, key: string): (r: Option<LightSettings>)
    ensures r.None? <==> key !in LightKeys
    ensures r.Some? && LightInRange(l) ==> LightInRange(r.value)
  {
    if key == "ArrowDown" then Some(l.(phi := Max(0.1, l.phi - 0.1)))
    else if key == "ArrowUp" then Some(l.(phi := Min(PI - 0.1, l.phi + 0.1)))
    else if key == "ArrowRight" then Some(l.(theta := l.theta - 0.1))
    else if key == "ArrowLeft" then Some(l.(theta := l.theta + 0.1))
    else if key == "+" then Some(l.(intensity := Min(5.0, l.intensity + 0.1)))
    else if key == "-" then Some(l.(intensity := Max(0.0, l.intensity - 0.1)))
    else None
  }

  /** The settings after a key, ignored keys leaving them as they were; the
      ranges are kept either way. */
  function AfterKey(l: LightSettings, key: string): (r: LightSettings)
    ensures key !in LightKeys ==> r == l
    ensures LightInRange(l) ==> LightInRange(r)
  {
    match KeyStep(l, key)
    case Some(n) => n
    case None => l
  }

  /** The settings after a run of keys, in order. */
  function AfterKeys(l: LightSettings, keys: seq<string>): LightSettings
    decreases |keys|
  {
    if keys == [] then l else AfterKeys(AfterKey(l, keys[0]), keys[1..])
  }

  /** The arrows across turn the azimuth by -0.1 (right) and +0.1 (left) and
      touch nothing else, so one undoes the other. */
  lemma AzimuthKeys(l: LightSettings)
    ensures AfterKey(l, "ArrowRight") == l.(theta := l.theta - 0.1)
    ensures AfterKey(l, "ArrowLeft") == l.(theta := l.theta + 0.1)
    ensures AfterKey(AfterKey(l, "ArrowLeft"), "ArrowRight") == l
  {
  }

  /** Away from the clamps, up and down undo each other. */
  lemma PolarKeysInverse(l: LightSettings)
    requires 0.1 <= l.phi <= PI - 0.2
    ensures AfterKey(AfterKey(l, "ArrowUp"), "ArrowDown") == l
  {
  }

  /** Starting in range, the settings stay in range under any key sequence. */
  lemma {:induction false} KeysInRange(l: LightSettings, keys: seq<string>)
    requires LightInRange(l)
    ensures LightInRange(AfterKeys(l, keys))
    decreases |keys|
  {
    if keys != [] {
      KeysInRange(AfterKey(l, keys[0]), keys[1..]);
    }
  }

  /** n presses of the same key. */
  function Presses(key: string, n: nat): (r: seq<string>)
    ensures |r| == n
  {
    seq(n, _ => key)
  }

  /** n presses of "-" lower the intensity by 0.1 each, stopping at 0, and
      leave both angles alone. */
  lemma {:induction false} MinusPresses(l: LightSettings, n: nat)
    requires l.intensity >= 0.0
    ensures AfterKeys(l, Presses("-", n)) == l.(intensity := Max(0.0, l.intensity - 0.1 * n as real))
    decreases n
  {
    if n > 0 {
      var keys := Presses("-", n);
      assert keys[0] == "-";
      assert keys[1..] == Presses("-", n - 1);
      var once := AfterKey(l, "-");
      assert once == l.(intensity := Max(0.0, l.intensity - 0.1));
      assert AfterKeys(l, keys) == AfterKeys(once, Presses("-", n - 1));
      MinusPresses(once, n - 1);
      var v := Max(0.0, once.intensity - 0.1 * (n - 1) as real);
      assert v == Max(0.0, l.intensity - 0.1 * n as real);
      assert once.(intensity := v) == l.(intensity := v);
    }
  }

  /** Twenty presses of "-" from intensity 1 end at exactly 0. */
  lemma TwentyMinus(l: LightSettings)
    requires l.intensity == 1.0
    ensures AfterKeys(l, Presses("-", 20)).intensity == 0.0
  {
    MinusPresses(l, 20);
  }

  /** The light controller's fields of the store. */
  function SettingsOf(st: State): LightSettings
    reads st
  {
    LightSettings(st.lightAnglePhi, st.lightAngleTheta, st.lightIntensity)
  }

  /** lightControl: a recognised key updates its setting (the intensity keys
      also the light's own intensity) and repositions the light around the
      object, which without a mesh throws and leaves the light where it was;
      any other key returns with nothing changed. */
  method LightControl(st: State, key: string, sin: real -> real, cos: real -> real)
    requires st.Valid()
    modifies st`lightAnglePhi, st`lightAngleTheta, st`lightIntensity, st`directionalLightIntensity
    modifies st`directionalLightPosition, st`directionalLightTarget
    ensures st.Valid()
    ensures KeyStep(old(SettingsOf(st)), key) == None ==>
      && SettingsOf(st) == old(SettingsOf(st))
      && st.directionalLightPosition == old(st.directionalLightPosition)
      && st.directionalLightTarget == old(st.directionalLightTarget)
    ensures KeyStep(old(SettingsOf(st)), key).Some? ==>
      && SettingsOf(st) == KeyStep(old(SettingsOf(st)), key).value
      && (st.latheMesh != null ==>
            var c := AxisCenter(st.latheMesh.geometry.boundingBox);
            && st.directionalLightPosition == LightPosition(c, st.lightDistance, st.lightAnglePhi, st.lightAngleTheta, sin, cos)
            && st.directionalLightTarget == c)
      && (st.latheMesh == null ==>
            && st.directionalLightPosition == old(st.directionalLightPosition)
            && st.directionalLightTarget == old(st.directionalLightTarget))
  {
    if key == "ArrowDown" {
      st.lightAnglePhi := Max(0.1, st.lightAnglePhi - 0.1);
    } else if key == "ArrowUp" {
      st.lightAnglePhi := Min(PI - 0.1, st.lightAnglePhi + 0.1);
    } else if key == "ArrowRight" {
      st.lightAngleTheta := st.lightAngleTheta - 0.1;
    } else if key == "ArrowLeft" {
      st.lightAngleTheta := st.lightAngleTheta + 0.1;
    } else if key == "+" {
      st.lightIntensity := Min(5.0, st.lightIntensity + 0.1);
      st.directionalLightIntensity := st.lightIntensity;
    } else if key == "-" {
      st.lightIntensity := Max(0.0, st.lightIntensity - 0.1);
      st.directionalLightIntensity := st.lightIntensity;
    } else {
      return;
    }
    if st.latheMesh != null {
      UpdateLightPosition(st, sin, cos);
    }
  }
}
