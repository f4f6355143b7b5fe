/**
 * The part of the OpenGL widget that is its own logic rather than calls into
 * the graphics library or the GUI toolkit: the auto-rotation flag and frame
 * counter with the redraw requests they cause, and the host-side staging
 * arrays that the geometry builder fills and the initialisation empties once
 * their contents have been handed to the device buffers.
 */
module GLWidget {
  import opened Mesh
  import Animation

  class TestOGLWidget {
    /** Whether the model spins about the vertical axis while painting. */
    var rotating: bool
    /** Frame counter driving the rotation angle, kept in [0, Period). */
    var frame: int
    /** Number of redraws asked of the toolkit so far (calls of `update()`). */
    var redrawRequests: nat

    /** Host-side staging array of vertex records. */
    var vertices: seq<Vertex>
    /** Host-side staging array of indices. */
    var indexes: seq<uint32>

    /** What the vertex buffer was allocated with. */
    var deviceVertices: seq<Vertex>
    /** What the index buffer was allocated with. */
    var deviceIndexes: seq<uint32>
    /** Byte size passed when allocating the index buffer. */
    var indexBufferSize: nat

    ghost predicate Valid()
      reads this
    {
      Animation.Valid(State())
    }

    /** The animation part of the widget's state. */
    function State(): Animation.WidgetState
      reads this
    {
      Animation.WidgetState(rotating, frame, redrawRequests)
    }

    /**
     * A new widget. The initial flag and counter are the caller's choice;
     * no redraw has been requested and nothing is staged or uploaded yet.
     */
    constructor (initialRotating: bool, initialFrame: int)
      requires 0 <= initialFrame < Animation.Period
      ensures Valid()
      ensures rotating == initialRotating && frame == initialFrame && redrawRequests == 0
      ensures vertices == [] && indexes == []
      ensures deviceVertices == [] && deviceIndexes == [] && indexBufferSize == 0
    {
      rotating := initialRotating;
      frame := initialFrame;
      redrawRequests := 0;
      vertices, indexes := [], [];
      deviceVertices, deviceIndexes, indexBufferSize := [], [], 0;
    }

    /** Asks the toolkit for one more repaint. */
    method Update()
      modifies this`redrawRequests
      ensures redrawRequests == old(redrawRequests) + 1
    {
      redrawRequests := redrawRequests + 1;
    }

    /** Enables or disables auto-rotation; redraws only if the value changes. */
    method SetRotation(rotate: bool)
      modifies this`rotating, this`redrawRequests
      ensures rotating == rotate
      ensures rotate == old(rotating) ==> redrawRequests == old(redrawRequests)
      ensures rotate != old(rotating) ==> redrawRequests == old(redrawRequests) + 1
      ensures State() == Animation.SetRotation(old(State()), rotate)
    {
      if rotate != rotating {
        rotating := rotate;
        Update();
      }
    }

    /** Flips auto-rotation and always redraws. */
    method ToggleRotation()
      modifies this`rotating, this`redrawRequests
      ensures rotating == !old(rotating)
      ensures redrawRequests == old(redrawRequests) + 1
      ensures State() == Animation.ToggleRotation(old(State()))
    {
      rotating := !rotating;
      Update();
    }

    /** The current auto-rotation flag. */
    method GetRotation() returns (r: bool)
      ensures r == rotating
    {
      r := rotating;
    }

    /**
     * The state part of painting one frame: the counter advances modulo the
     * period and the next frame is requested. The flag is only read.
     */
    method Paint()
      requires Valid()
      modifies this`frame, this`redrawRequests
      ensures Valid()
      ensures frame == Animation.NextFrame(old(frame))
      ensures redrawRequests == old(redrawRequests) + 1
      ensures State() == Animation.Paint(old(State()))
    {
      frame := (frame + 1) % Animation.Period;
      Update();
    }

    /**
     * Empties both staging arrays, then appends the four vertex records and
     * the twelve indices of the tetrahedron, three per face. The result does
     * not depend on what was staged before, so building twice is building once.
     */
    method CreateGeometry()
      modifies this`vertices, this`indexes
      ensures vertices == TetraVertices && indexes == TetraIndices
      ensures |vertices| == 4 && |indexes| == 12
      ensures ValidMesh(indexes, |vertices|)
    {
      vertices := [];
      indexes := [];

      vertices := vertices + [Vertex(0)];
      vertices := vertices + [Vertex(1)];
      vertices := vertices + [Vertex(2)];
      vertices := vertices + [Vertex(3)];

      indexes := indexes + [0];
      indexes := indexes + [2];
      indexes := indexes + [1];

      indexes := indexes + [0];
      indexes := indexes + [1];
      indexes := indexes + [3];

      indexes := indexes + [3];
      indexes := indexes + [1];
      indexes := indexes + [2];

      indexes := indexes + [3];
      indexes := indexes + [2];
      indexes := indexes + [0];

      assert vertices == TetraVertices && indexes == TetraIndices;
      TetraMeshValid();
    }

    /**
     * The geometry part of initialisation: build the staging arrays, hand
     * their contents to the device buffers, then drop the host copies.
     */
    method InitializeGL()
      modifies this`vertices, this`indexes, this`deviceVertices, this`deviceIndexes, this`indexBufferSize
      ensures vertices == [] && indexes == []
      ensures deviceVertices == TetraVertices && deviceIndexes == TetraIndices
      ensures ValidMesh(deviceIndexes, |deviceVertices|)
      ensures indexBufferSize == |deviceIndexes| * IndexSize == 48
    {
      CreateGeometry();
      deviceVertices := vertices;
      deviceIndexes := indexes;
      indexBufferSize := |indexes| * IndexSize;
      indexes := [];
      vertices := [];
    }
  }

  /** Building the geometry a second time leaves exactly what one build leaves. */
  method CreateGeometryTwice(w: TestOGLWidget)
    modifies w`vertices, w`indexes
    ensures w.vertices == TetraVertices && w.indexes == TetraIndices
  {
    w.CreateGeometry();
    w.CreateGeometry();
  }

  /** Two toggles give back the flag they started from. */
  method ToggleTwice(w: TestOGLWidget)
    modifies w`rotating, w`redrawRequests
    ensures w.rotating == old(w.rotating)
    ensures w.redrawRequests == old(w.redrawRequests) + 2
  {
    w.ToggleRotation();
    w.ToggleRotation();
  }
}
