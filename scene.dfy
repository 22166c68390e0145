/** The viewer's shared mutable store (the state object that src/lathe.js
    and src/controls.js both import) and the three.js objects it owns that
    the core changes in place: the lathe mesh with its geometry and
    material, the camera and the directional light. */
module Scene {
  import opened Numbers
  import opened Vectors

  /** A LatheGeometry: the outline it revolves, the bounding box three.js
      computes for it (computeBoundingBox gives the same box every time,
      since the geometry is never changed after it is built) and the number
      of times dispose() has been called on it. */
  class LatheGeometry {
    const outline: seq<Point2>
    const boundingBox: Box
    var disposals: nat

    constructor (outline: seq<Point2>, boundingBox: Box)
      ensures this.outline == outline && this.boundingBox == boundingBox
      ensures disposals == 0
    {
      this.outline := outline;
      this.boundingBox := boundingBox;
      disposals := 0;
    }

    /** geometry.dispose(): releases the GPU buffers. */
    method Dispose()
      modifies this
      ensures disposals == old(disposals) + 1
    {
      disposals := disposals + 1;
    }
  }

  datatype Wrapping = ClampToEdgeWrapping | RepeatWrapping

  /** The fields of a loaded Texture that applyTexture sets. */
  datatype Texture = Texture(wrapS: Wrapping, wrapT: Wrapping, repeatX: real, repeatY: real)

  /** A MeshStandardMaterial: its texture map (material.map), its needsUpdate flag and the
      number of times dispose() has been called on it. */
  class Material {
    var textureMap: Option<Texture>
    var needsUpdate: bool
    var disposals: nat

    constructor ()
      ensures textureMap == None && !needsUpdate && disposals == 0
    {
      textureMap := None;
      needsUpdate := false;
      disposals := 0;
    }

    /** material.dispose(). */
    method Dispose()
      modifies this
      ensures disposals == old(disposals) + 1
      ensures textureMap == old(textureMap) && needsUpdate == old(needsUpdate)
    {
      disposals := disposals + 1;
    }
  }

  /** A Mesh: a geometry and a material, fixed when it is built. */
  class Mesh {
    const geometry: LatheGeometry
    const material: Material

    constructor (geometry: LatheGeometry, material: Material)
      ensures this.geometry == geometry && this.material == material
    {
      this.geometry := geometry;
      this.material := material;
    }
  }

  /** The screen position of the last pointer event the drag machine recorded. */
  datatype MousePosition = MousePosition(x: real, y: real)

  /** The shared store. The scene's meshes are kept as a set; the ambient
      and directional lights, which are added once and never removed, are
      not part of it. */
  class State {
    var sceneMeshes: set<Mesh>
    var latheMesh: Mesh?

    var cameraPosition: Vec3
    /** The point the last camera.lookAt call aimed at; None while the
        camera still has its default orientation. */
    var cameraTarget: Option<Vec3>
    const cameraFov: real

    var isDragging: bool
    var previousMousePosition: MousePosition

    const lightDistance: real
    var lightAnglePhi: real
    var lightAngleTheta: real
    var lightIntensity: real

    var directionalLightIntensity: real
    var directionalLightPosition: Vec3
    var directionalLightTarget: Vec3

    /** The objects whose fields the invariant reads besides the store itself. */
    function MeshParts(): set<object>
      reads this
    {
      if latheMesh == null then {} else {latheMesh.geometry, latheMesh.material}
    }

    /** The invariant every handler keeps: the scene holds exactly the live
        lathe mesh, whose resources have not been released; the light's polar
        angle and intensity stay in their ranges; the light shines with the
        intensity the store records. */
    ghost predicate Valid()
      reads this, MeshParts()
    {
      && sceneMeshes == (if latheMesh == null then {} else {latheMesh})
      && (latheMesh != null ==> latheMesh.geometry.disposals == 0 && latheMesh.material.disposals == 0)
      && 0.1 <= lightAnglePhi <= PI - 0.1
      && 0.0 <= lightIntensity <= 5.0
      && directionalLightIntensity == lightIntensity
    }

    /** The store as initRenderer leaves it: no mesh, a 75-degree camera at
        the origin, not dragging, the light ten units out at polar and
        azimuth angle pi/4 with intensity 1, placed at (400, 400, 400). */
    constructor ()
      ensures Valid()
      ensures latheMesh == null && sceneMeshes == {}
      ensures cameraFov == 75.0 && cameraPosition == Vec3(0.0, 0.0, 0.0) && cameraTarget == None
      ensures !isDragging && previousMousePosition == MousePosition(0.0, 0.0)
      ensures lightDistance == 10.0 && lightAnglePhi == PI / 4.0 && lightAngleTheta == PI / 4.0
      ensures lightIntensity == 1.0 && directionalLightIntensity == 1.0
      ensures directionalLightPosition == Vec3(400.0, 400.0, 400.0)
      ensures directionalLightTarget == Vec3(0.0, 0.0, 0.0)
    {
      sceneMeshes := {};
      latheMesh := null;
      cameraPosition := Vec3(0.0, 0.0, 0.0);
      cameraTarget := None;
      cameraFov := 75.0;
      isDragging := false;
      previousMousePosition := MousePosition(0.0, 0.0);
      lightDistance := 10.0;
      lightAnglePhi := PI / 4.0;
      lightAngleTheta := PI / 4.0;
      lightIntensity := 1.0;
      directionalLightIntensity := 1.0;
      directionalLightPosition := Vec3(400.0, 400.0, 400.0);
      directionalLightTarget := Vec3(0.0, 0.0, 0.0);
    }
  }
}
