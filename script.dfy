/**
 * The sketch's own code: createBox, generatePattern, and the start-up and
 * spacing-slider paths that call it.
 */
module Script {
  import opened Pattern
  import opened SceneGraph

  /** The children added before the first pattern: camera, ambient light, rect light. */
  const Fixtures: seq<SceneChild> := [Fixed(Camera), Fixed(AmbientLight), Fixed(RectLight)]

  /** Adds one cube of the given size at (x, y, z) to the scene. */
  method CreateBox(scene: Scene, x: real, y: real, z: real, size: real)
    modifies scene
    ensures scene.children == old(scene.children) + [Box(x, y, z, size)]
  {
    scene.Add(Box(x, y, z, size));
  }

  /**
   * Removes every child from index 3 on, then adds the boxes of the xy-,
   * xz- and yz-planes, row by row.
   */
  method GeneratePattern(scene: Scene, spacing: real)
    modifies scene
    ensures scene.children == Regenerated(old(scene.children), spacing)
  {
    var step := 1.0 + spacing;
    ClearBoxes(scene);
    AddXYPlane(scene, step);
    AddXZPlane(scene, step);
    AddYZPlane(scene, step);
  }

  /** The clearing loop of generatePattern: drop children[3] until only three children remain. */
  method ClearBoxes(scene: Scene)
    modifies scene
    ensures scene.children == Kept(old(scene.children))
  {
    while |scene.children| > 3
      invariant Kept(scene.children) == Kept(old(scene.children))
      decreases |scene.children|
    {
      scene.RemoveAt(3);
    }
  }

  /** The xy-plane loops of generatePattern: rows along y, boxes along x, z = 0. */
  method AddXYPlane(scene: Scene, step: real)
    modifies scene
    ensures scene.children == old(scene.children) + PlaneBoxes(XY, step)
  {
    var size := 0.8;
    var pattern := Counts;
    var startOffset := (|pattern| - 1) as real / 2.0 * step;
    for yIndex := 0 to |pattern|
      invariant scene.children == old(scene.children) + PlaneRows(XY, step, yIndex)
    {
      var y := startOffset - yIndex as real * step;
      var numCubesY := pattern[yIndex];
      var startX := -((numCubesY - 1) as real) / 2.0 * step;
      for xIndex := 0 to numCubesY
        invariant scene.children == old(scene.children) + PlaneRows(XY, step, yIndex) + RowBoxes(XY, step, yIndex)[..xIndex]
      {
        var x := startX + xIndex as real * step;
        CreateBox(scene, x, y, 0.0, size);
        assert Box(x, y, 0.0, size) == Place(XY, step, yIndex, xIndex);
        RowPrefixGrows(XY, step, yIndex, xIndex);
      }
      PlaneRowsGrow(XY, step, yIndex);
    }
  }

  /** The xz-plane loops of generatePattern: rows along z, boxes along x, y = 0. */
  method AddXZPlane(scene: Scene, step: real)
    modifies scene
    ensures scene.children == old(scene.children) + PlaneBoxes(XZ, step)
  {
    var size := 0.8;
    var pattern := Counts;
    var startOffset := (|pattern| - 1) as real / 2.0 * step;
    for zIndex := 0 to |pattern|
      invariant scene.children == old(scene.children) + PlaneRows(XZ, step, zIndex)
    {
      var z := startOffset - zIndex as real * step;
      var numCubesZ := pattern[zIndex];
      var startX := -((numCubesZ - 1) as real) / 2.0 * step;
      for xIndex := 0 to numCubesZ
        invariant scene.children == old(scene.children) + PlaneRows(XZ, step, zIndex) + RowBoxes(XZ, step, zIndex)[..xIndex]
      {
        var x := startX + xIndex as real * step;
        CreateBox(scene, x, 0.0, z, size);
        assert Box(x, 0.0, z, size) == Place(XZ, step, zIndex, xIndex);
        RowPrefixGrows(XZ, step, zIndex, xIndex);
      }
      PlaneRowsGrow(XZ, step, zIndex);
    }
  }

  /** The yz-plane loops of generatePattern: rows along y, boxes along z, x = 0. */
  method AddYZPlane(scene: Scene, step: real)
    modifies scene
    ensures scene.children == old(scene.children) + PlaneBoxes(YZ, step)
  {
    var size := 0.8;
    var pattern := Counts;
    var startOffset := (|pattern| - 1) as real / 2.0 * step;
    for yIndex := 0 to |pattern|
      invariant scene.children == old(scene.children) + PlaneRows(YZ, step, yIndex)
    {
      var y := startOffset - yIndex as real * step;
      var numCubesY := pattern[yIndex];
      var startZ := -((numCubesY - 1) as real) / 2.0 * step;
      for zIndex := 0 to numCubesY
        invariant scene.children == old(scene.children) + PlaneRows(YZ, step, yIndex) + RowBoxes(YZ, step, yIndex)[..zIndex]
      {
        var z := startZ + zIndex as real * step;
        CreateBox(scene, 0.0, y, z, size);
        assert Box(0.0, y, z, size) == Place(YZ, step, yIndex, zIndex);
        RowPrefixGrows(YZ, step, yIndex, zIndex);
      }
      PlaneRowsGrow(YZ, step, yIndex);
    }
  }

  /**
   * The running sketch: the scene and the spacing parameter the GUI edits.
   * Its invariant is that the scene shows the three fixtures followed by the
   * cross for the current spacing.
   */
  class Sketch {
    const scene: Scene
    var spacing: real

    ghost predicate Valid()
      reads this, scene
    {
      scene.children == Fixtures + ExpectedBoxes(spacing)
    }

    /** Start-up: add camera, ambient light and rect light, then generate the pattern for spacing 0. */
    constructor ()
      ensures fresh(scene)
      ensures spacing == 0.0
      ensures Valid()
    {
      scene := new Scene();
      spacing := 0.0;
      new;
      scene.Add(Fixed(Camera));
      scene.Add(Fixed(AmbientLight));
      scene.Add(Fixed(RectLight));
      assert scene.children == Fixtures;
      GeneratePattern(scene, spacing);
      assert Kept(Fixtures) == Fixtures;
    }

    /** The spacing slider's callback: store the new value and regenerate the pattern. */
    method OnSpacingChange(value: real)
      requires Valid()
      modifies this, scene
      ensures spacing == value
      ensures Valid()
      ensures scene.children[..3] == old(scene.children[..3])
    {
      spacing := value;
      GeneratePattern(scene, spacing);
    }
  }
}
