/** The handlers of src/lathe.js that the core consists of: updateShape with
    adjustCamera, getObjectCenter, updateLightPosition and the completion
    callback of applyTexture.

    The three.js computations that are not shown are parameters: the
    flattening shape.getPoints(), the bounding box that
    LatheGeometry.computeBoundingBox() finds for a revolved outline, and
    Math.tan, Math.sin and Math.cos. */
module Lathe {
  import opened Numbers
  import opened Vectors
  import opened Profile
  import opened Outline
  import opened Scene

  /** The outline updateShape revolves, given the flattening of the shape:
      the flattened points and two caps, which lie on the axis with the top
      one above the bottom one. */
  function ProfileOutline(text: string, conv: Conversion, getPoints: seq<Command> -> seq<Point2>): (r: seq<Point2>)
    requires |getPoints(ProfileCommands(text, conv))| > 0
    ensures |r| == |getPoints(ProfileCommands(text, conv))| + 2
    ensures r[0].x == 0.0 && r[|r| - 1].x == 0.0 && r[|r| - 1].y <= r[0].y
  {
    Capped(Translate(getPoints(ProfileCommands(text, conv)), StartX(text, conv)))
  }

  /** The outline is the flattened points shifted by -startX, between a top
      cap and a bottom cap on the axis; the caps are at the highest and lowest
      y the flattening produced, and every point lies between them. */
  lemma ProfileOutlineShape(text: string, conv: Conversion, getPoints: seq<Command> -> seq<Point2>)
    requires |getPoints(ProfileCommands(text, conv))| > 0
    ensures var pts, o := getPoints(ProfileCommands(text, conv)), ProfileOutline(text, conv, getPoints);
      && |o| == |pts| + 2
      && o[0] == Point2(0.0, TopY(pts)) && o[|o| - 1] == Point2(0.0, BottomY(pts))
      && (forall i :: 0 <= i < |pts| ==> o[i + 1] == Point2(pts[i].x - StartX(text, conv), pts[i].y))
      && (forall i :: 0 <= i < |o| ==> BottomY(pts) <= o[i].y <= TopY(pts))
  {
    var pts := getPoints(ProfileCommands(text, conv));
    var moved := Translate(pts, StartX(text, conv));
    CappedShape(moved);
    CapsIgnoreShift(pts, StartX(text, conv));
    var o := ProfileOutline(text, conv, getPoints);
    forall i | 0 <= i < |pts|
      ensures o[i + 1] == Point2(pts[i].x - StartX(text, conv), pts[i].y)
    {
      assert o[i + 1] == o[1..|o| - 1][i] == moved[i];
    }
  }

  /** getObjectCenter's policy: the centre of the box projected onto the
      rotation axis. It lies on the axis, half-way up the box. */
  function AxisCenter(b: Box): (c: Vec3)
    ensures c.x == 0.0 && c.z == 0.0
    ensures c.y - b.min.y == b.max.y - c.y
    ensures WellFormed(b) ==> b.min.y <= c.y <= b.max.y
  {
    Center(b).(x := 0.0, z := 0.0)
  }

  /** getObjectCenter: the box centre with x and z overwritten by 0. */
  method GetObjectCenter(geometry: LatheGeometry) returns (center: Vec3)
    ensures center == AxisCenter(geometry.boundingBox)
  {
    center := Center(geometry.boundingBox);
    center := center.(x := 0.0);
    center := center.(z := 0.0);
  }

  /** (camera.fov * Math.PI) / 360: half the vertical field of view, in
      radians; a field of view strictly between 0 and 180 degrees gives an
      angle strictly between 0 and a right angle, where tan is positive. */
  function HalfFov(fov: real): (r: real)
    ensures 0.0 < fov < 180.0 ==> 0.0 < r < PI / 2.0
  {
    fov * PI / 360.0
  }

  /** adjustCamera's placement, given t = Math.tan of the half field of
      view: at the box centre's x and y, and at the absolute z that is 1.5
      times the distance at which the largest dimension exactly fills the
      view. For a box centred on z = 0, as every lathe box is, that puts the
      camera in front of the centre. */
  function CameraPlacement(b: Box, t: real): (p: Vec3)
    requires t != 0.0
    ensures p.x == Center(b).x && p.y == Center(b).y
    ensures p.z == 1.5 * (MaxDim(b) / (2.0 * t))
    ensures WellFormed(b) && t > 0.0 && b.min.z == -b.max.z ==> p.z >= Center(b).z
  {
    var distance := MaxDim(b) / (2.0 * t);
    Vec3(Center(b).x, Center(b).y, distance * 1.5)
  }

  /** At two thirds of the camera's distance the half-height of the view is
      half the largest dimension, so every extent of the box fits. */
  lemma CameraFramesBox(b: Box, t: real)
    requires t > 0.0
    ensures var d := CameraPlacement(b, t).z / 1.5;
      && 2.0 * t * d == MaxDim(b)
      && Size(b).x <= 2.0 * t * d && Size(b).y <= 2.0 * t * d && Size(b).z <= 2.0 * t * d
  {
  }

  /** adjustCamera. */
  method AdjustCamera(st: State, geometry: LatheGeometry, tan: real -> real)
    requires tan(HalfFov(st.cameraFov)) != 0.0
    modifies st`cameraPosition, st`cameraTarget
    ensures st.cameraPosition == CameraPlacement(geometry.boundingBox, tan(HalfFov(st.cameraFov)))
    ensures st.cameraTarget == Some(Center(geometry.boundingBox))
  {
    var size := Size(geometry.boundingBox);
    var maxDim := Max3(size.x, size.y, size.z);
    var distance := maxDim / (2.0 * tan(HalfFov(st.cameraFov)));
    var center := Center(geometry.boundingBox);
    st.cameraPosition := Vec3(center.x, center.y, distance * 1.5);
    st.cameraTarget := Some(center);
  }

  /** The outline-building part of updateShape: the flattened points shifted
      by -startX, then the bottom cap pushed and the top cap unshifted. */
  method BuildOutline(text: string, conv: Conversion, getPoints: seq<Command> -> seq<Point2>)
    returns (points: seq<Point2>)
    requires |getPoints(ProfileCommands(text, conv))| > 0
    ensures points == ProfileOutline(text, conv, getPoints)
  {
    var commands, startX := BuildShape(text, conv);
    points := Translate(getPoints(commands), startX);
    var topY := TopY(points);
    var bottomY := BottomY(points);
    points := points + [Point2(0.0, bottomY)];
    points := [Point2(0.0, topY)] + points;
  }

  /** The release of the previous mesh in updateShape: with one, it leaves
      the scene and its geometry and material are each disposed once. */
  method ReleaseMesh(st: State)
    requires st.Valid()
    modifies st`sceneMeshes, st.MeshParts()
    ensures st.sceneMeshes == {}
    ensures st.latheMesh != null ==>
      && st.latheMesh.geometry.disposals == old(st.latheMesh.geometry.disposals) + 1
      && st.latheMesh.material.disposals == old(st.latheMesh.material.disposals) + 1
  {
    var latheMesh := st.latheMesh;
    if latheMesh != null {
      st.sceneMeshes := st.sceneMeshes - {latheMesh};
      latheMesh.geometry.Dispose();
      latheMesh.material.Dispose();
    }
  }

  /** The scene part of updateShape, once the outline is built: the
      previous mesh is released, a new one is made from the outline and
      stored, and the camera is aimed at it. */
  method InstallMesh(st: State, points: seq<Point2>, latheBounds: seq<Point2> -> Box, tan: real -> real)
    requires st.Valid()
    requires tan(HalfFov(st.cameraFov)) != 0.0
    modifies st`sceneMeshes, st`latheMesh, st`cameraPosition, st`cameraTarget, st.MeshParts()
    ensures st.Valid()
    ensures st.latheMesh != null && fresh(st.latheMesh)
    ensures fresh(st.latheMesh.geometry) && fresh(st.latheMesh.material)
    ensures st.latheMesh.geometry.outline == points
    ensures st.latheMesh.geometry.boundingBox == latheBounds(points)
    ensures st.latheMesh.material.textureMap == None
    ensures st.sceneMeshes == {st.latheMesh}
    ensures old(st.latheMesh) != null ==>
      && old(st.latheMesh) !in st.sceneMeshes
      && old(st.latheMesh).geometry.disposals == old(st.latheMesh.geometry.disposals) + 1
      && old(st.latheMesh).material.disposals == old(st.latheMesh.material.disposals) + 1
    ensures st.cameraPosition == CameraPlacement(latheBounds(points), tan(HalfFov(st.cameraFov)))
    ensures st.cameraTarget == Some(Center(latheBounds(points)))
  {
    var geometry := new LatheGeometry(points, latheBounds(points));
    var material := new Material();
    ReleaseMesh(st);
    var mesh := new Mesh(geometry, material);
    st.latheMesh := mesh;
    st.sceneMeshes := st.sceneMeshes + {mesh};
    AdjustCamera(st, geometry, tan);
  }

  /** updateShape: parses the profile, builds the outline, releases the
      previous mesh (removed from the scene, its geometry and its material
      each disposed once) and stores the new one, then frames it. */
  method UpdateShape(st: State, text: string, conv: Conversion,
                     getPoints: seq<Command> -> seq<Point2>, latheBounds: seq<Point2> -> Box,
                     tan: real -> real)
    requires st.Valid()
    requires |getPoints(ProfileCommands(text, conv))| > 0
    requires tan(HalfFov(st.cameraFov)) != 0.0
    modifies st`sceneMeshes, st`latheMesh, st`cameraPosition, st`cameraTarget, st.MeshParts()
    ensures st.Valid()
    ensures st.latheMesh != null && fresh(st.latheMesh)
    ensures fresh(st.latheMesh.geometry) && fresh(st.latheMesh.material)
    ensures st.latheMesh.geometry.outline == ProfileOutline(text, conv, getPoints)
    ensures st.latheMesh.geometry.boundingBox == latheBounds(st.latheMesh.geometry.outline)
    ensures st.latheMesh.material.textureMap == None
    ensures st.sceneMeshes == {st.latheMesh}
    ensures old(st.latheMesh) != null ==>
      && old(st.latheMesh) !in st.sceneMeshes
      && old(st.latheMesh).geometry.disposals == old(st.latheMesh.geometry.disposals) + 1
      && old(st.latheMesh).material.disposals == old(st.latheMesh.material.disposals) + 1
    ensures st.cameraPosition == CameraPlacement(st.latheMesh.geometry.boundingBox, tan(HalfFov(st.cameraFov)))
    ensures st.cameraTarget == Some(Center(st.latheMesh.geometry.boundingBox))
  {
    var points := BuildOutline(text, conv, getPoints);
    InstallMesh(st, points, latheBounds, tan);
  }

  /** The light's place on its sphere around the centre, given the sine and
      cosine functions. */
  function LightPosition(c: Vec3, d: real, phi: real, theta: real, sin: real -> real, cos: real -> real): Vec3 {
    Vec3(c.x + d * sin(phi) * cos(theta), c.y + d * cos(phi), c.z + d * sin(phi) * sin(theta))
  }

  /** With sine and cosine obeying sin^2 + cos^2 = 1 at the two angles, the
      light is exactly its distance away from the centre. */
  lemma LightOnSphere(c: Vec3, d: real, phi: real, theta: real, sin: real -> real, cos: real -> real)
    requires sin(phi) * sin(phi) + cos(phi) * cos(phi) == 1.0
    requires sin(theta) * sin(theta) + cos(theta) * cos(theta) == 1.0
    ensures var p := Sub(LightPosition(c, d, phi, theta, sin, cos), c);
      p.x * p.x + p.y * p.y + p.z * p.z == d * d
  {
    var sp, cp, st, ct := sin(phi), cos(phi), sin(theta), cos(theta);
    var p := Sub(LightPosition(c, d, phi, theta, sin, cos), c);
    assert p.x == d * sp * ct && p.y == d * cp && p.z == d * sp * st;
    calc {
      p.x * p.x + p.y * p.y + p.z * p.z;
      == (d * sp * ct) * (d * sp * ct) + (d * cp) * (d * cp) + (d * sp * st) * (d * sp * st);
      == d * d * (sp * sp * (ct * ct + st * st) + cp * cp);
      == d * d * (sp * sp + cp * cp);
      == d * d;
    }
  }

  /** updateLightPosition: places the light on its sphere around the current
      object centre and aims it at that centre. */
  method UpdateLightPosition(st: State, sin: real -> real, cos: real -> real)
    requires st.latheMesh != null
    modifies st`directionalLightPosition, st`directionalLightTarget
    ensures var c := AxisCenter(st.latheMesh.geometry.boundingBox);
      && st.directionalLightPosition == LightPosition(c, st.lightDistance, st.lightAnglePhi, st.lightAngleTheta, sin, cos)
      && st.directionalLightTarget == c
  {
    var center := GetObjectCenter(st.latheMesh.geometry);
    var lightX := center.x + st.lightDistance * sin(st.lightAnglePhi) * cos(st.lightAngleTheta);
    var lightY := center.y + st.lightDistance * cos(st.lightAnglePhi);
    var lightZ := center.z + st.lightDistance * sin(st.lightAnglePhi) * sin(st.lightAngleTheta);
    st.directionalLightPosition := Vec3(lightX, lightY, lightZ);
    st.directionalLightTarget := center;
  }

  /** The texture repeat factors for a box of the given size and an image of
      the given pixel size: never below 1, and otherwise exactly the number of
      image widths (heights) the object spans. */
  function RepeatFactors(size: Vec3, width: real, height: real): (r: (real, real))
    requires width > 0.0 && height > 0.0
    ensures r.0 >= 1.0 && r.1 >= 1.0
    ensures r.0 * width >= size.x && r.1 * height >= size.y
    ensures r.0 == 1.0 || r.0 * width == size.x
    ensures r.1 == 1.0 || r.1 * height == size.y
  {
    (Max(1.0, size.x / width), Max(1.0, size.y / height))
  }

  /** The completion callback of applyTexture, once the image has loaded with
      the given pixel size: with a live mesh, the texture repeats to fit the
      mesh's box and becomes its material's map; with none, nothing changes. */
  method ApplyTexture(st: State, imageWidth: real, imageHeight: real)
    requires st.Valid()
    requires imageWidth > 0.0 && imageHeight > 0.0
    modifies if st.latheMesh != null then {st.latheMesh.material} else {}
    ensures st.Valid()
    ensures st.latheMesh != null ==>
      var r := RepeatFactors(Size(st.latheMesh.geometry.boundingBox), imageWidth, imageHeight);
      && st.latheMesh.material.textureMap == Some(Texture(RepeatWrapping, RepeatWrapping, r.0, r.1))
      && st.latheMesh.material.needsUpdate
  {
    var latheMesh := st.latheMesh;
    if latheMesh != null {
      var size := Size(latheMesh.geometry.boundingBox);
      var repeat := (Max(1.0, size.x / imageWidth), Max(1.0, size.y / imageHeight));
      latheMesh.material.textureMap := Some(Texture(RepeatWrapping, RepeatWrapping, repeat.0, repeat.1));
      latheMesh.material.needsUpdate := true;
    }
  }
}
