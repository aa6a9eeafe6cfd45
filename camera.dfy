/** A 2D camera (Pineapple.Components.Camera2D): a position, a rotation in
    degrees and a zoom factor, from which the screen origin, the visible world
    rectangle and the world-to-screen view matrix are derived.

    The viewport size, which the source reads from the global window, is a
    parameter here; `float` is modelled as `real`; the rotation enters the
    view matrix as the cosine and sine of the camera's angle, supplied by the
    caller.
 */
module Camera {
  import opened Matrix

  datatype Camera2D = Camera2D(position: Vec2, rotation: real, zoom: real)

  /** An axis-aligned rectangle given by its top-left corner and its extent. */
  datatype RectangleF = RectangleF(x: real, y: real, width: real, height: real)

  /** The constructor stores its three arguments unchanged. */
  function NewCamera(position: Vec2, rotation: real, zoom: real): (c: Camera2D)
    ensures c.position == position && c.rotation == rotation && c.zoom == zoom
  {
    Camera2D(position, rotation, zoom)
  }

  /** The centre of the viewport. */
  function Origin(size: Vec2): (o: Vec2)
    ensures o.x + o.x == size.x && o.y + o.y == size.y
  {
    Vec2(size.x * 0.5, size.y * 0.5)
  }

  /** The world-space rectangle seen through a viewport of `size`. */
  function BoundingRectangle(cam: Camera2D, size: Vec2): (r: RectangleF)
    requires cam.zoom != 0.0
    // the extent is the viewport shrunk by the zoom
    ensures r.width * cam.zoom == size.x && r.height * cam.zoom == size.y
    // the rectangle is centred on the camera position
    ensures r.x + r.width / 2.0 == cam.position.x
    ensures r.y + r.height / 2.0 == cam.position.y
  {
    RectangleF(cam.position.x - Origin(size).x / cam.zoom,
               cam.position.y - Origin(size).y / cam.zoom,
               size.x / cam.zoom,
               size.y / cam.zoom)
  }

  /** The bounding rectangle ignores the rotation: it is the unrotated box. */
  lemma BoundingRectangleIgnoresRotation(cam: Camera2D, size: Vec2, rotation: real)
    requires cam.zoom != 0.0
    ensures BoundingRectangle(cam.(rotation := rotation), size) == BoundingRectangle(cam, size)
  {
  }

  /** A camera at the viewport centre with unit zoom sees exactly the viewport. */
  lemma CentredUnitCameraSeesViewport(cam: Camera2D, size: Vec2)
    requires cam.position == Origin(size) && cam.zoom == 1.0
    ensures BoundingRectangle(cam, size) == RectangleF(0.0, 0.0, size.x, size.y)
  {
  }

  /** The five steps of the view matrix, each post-concatenated to the last:
      undo the offset of the position from the origin, move the origin to
      (0, 0), rotate, zoom, and move (0, 0) back to the origin.  Its linear
      part is the rotation scaled by the zoom. */
  function ViewMatrix(cam: Camera2D, size: Vec2, rot: Rotation): (m: Affine)
    ensures m.scaleX == cam.zoom * rot.cos && m.skewX == -(cam.zoom * rot.sin)
    ensures m.skewY == cam.zoom * rot.sin && m.scaleY == cam.zoom * rot.cos
  {
    var o := Origin(size);
    var first := Neg(Sub(cam.position, o));
    PostConcat(PostConcat(PostConcat(PostConcat(
      Translation(first.x, first.y),
      Translation(-o.x, -o.y)),
      RotationMatrix(rot)),
      Scale(cam.zoom, cam.zoom)),
      Translation(o.x, o.y))
  }

  /** The view matrix applies its five steps to a point in exactly this order. */
  lemma ViewMatrixComposes(cam: Camera2D, size: Vec2, rot: Rotation, p: Vec2)
    ensures var o := Origin(size);
            var first := Neg(Sub(cam.position, o));
            Apply(ViewMatrix(cam, size, rot), p) ==
              Apply(Translation(o.x, o.y),
                Apply(Scale(cam.zoom, cam.zoom),
                  Apply(RotationMatrix(rot),
                    Apply(Translation(-o.x, -o.y),
                      Apply(Translation(first.x, first.y), p)))))
  {
    var o := Origin(size);
    var first := Neg(Sub(cam.position, o));
    PostConcatChainApplies(Translation(first.x, first.y), Translation(-o.x, -o.y),
                           RotationMatrix(rot), Scale(cam.zoom, cam.zoom), Translation(o.x, o.y), p);
  }

  /** The five steps, applied one after the other to a point. */
  lemma FiveStepsMapPoint(o: Vec2, position: Vec2, rot: Rotation, zoom: real, p: Vec2)
    ensures var first := Neg(Sub(position, o));
            var d := Sub(p, position);
            Apply(Translation(o.x, o.y),
              Apply(Scale(zoom, zoom),
                Apply(RotationMatrix(rot),
                  Apply(Translation(-o.x, -o.y),
                    Apply(Translation(first.x, first.y), p)))))
            == Add(o, Vec2(zoom * (rot.cos * d.x - rot.sin * d.y),
                           zoom * (rot.sin * d.x + rot.cos * d.y)))
  {
    var first := Neg(Sub(position, o));
    var d := Sub(p, position);
    assert Apply(Translation(-o.x, -o.y), Apply(Translation(first.x, first.y), p)) == d;
    var r := Apply(RotationMatrix(rot), d);
    assert r == Vec2(rot.cos * d.x - rot.sin * d.y, rot.sin * d.x + rot.cos * d.y);
    assert Apply(Scale(zoom, zoom), r) == Vec2(zoom * r.x, zoom * r.y);
  }

  /** Where the view matrix sends a world point: its offset from the camera
      position, rotated and zoomed, measured from the screen centre. */
  lemma ViewMatrixMapsPoint(cam: Camera2D, size: Vec2, rot: Rotation, p: Vec2)
    ensures var d := Sub(p, cam.position);
            Apply(ViewMatrix(cam, size, rot), p) ==
              Add(Origin(size), Vec2(cam.zoom * (rot.cos * d.x - rot.sin * d.y),
                                     cam.zoom * (rot.sin * d.x + rot.cos * d.y)))
  {
    ViewMatrixComposes(cam, size, rot, p);
    FiveStepsMapPoint(Origin(size), cam.position, rot, cam.zoom, p);
  }

  /** The camera's focus point always lands on the screen centre, whatever the
      rotation and zoom. */
  lemma ViewMatrixCentresPosition(cam: Camera2D, size: Vec2, rot: Rotation)
    ensures Apply(ViewMatrix(cam, size, rot), cam.position) == Origin(size)
  {
    ViewMatrixMapsPoint(cam, size, rot, cam.position);
  }

  /** Without rotation and at unit zoom the view matrix is the translation that
      moves the position onto the origin. */
  lemma UnitViewMatrixTranslates(cam: Camera2D, size: Vec2, p: Vec2)
    requires cam.zoom == 1.0
    ensures Apply(ViewMatrix(cam, size, NoRotation), p) == Add(Sub(p, cam.position), Origin(size))
  {
    var d := Sub(p, cam.position);
    ViewMatrixMapsPoint(cam, size, NoRotation, p);
    UnitRotationFixes(cam.zoom, NoRotation, d);
  }

  /** Rotating by zero degrees at unit zoom leaves an offset as it is. */
  lemma UnitRotationFixes(zoom: real, rot: Rotation, d: Vec2)
    requires zoom == 1.0 && rot == NoRotation
    ensures Vec2(zoom * (rot.cos * d.x - rot.sin * d.y), zoom * (rot.sin * d.x + rot.cos * d.y)) == d
  {
  }

  /** Without rotation, the corners of the bounding rectangle are sent to the
      corners of the viewport: the rectangle is exactly what the camera shows. */
  lemma BoundingRectangleFillsViewport(cam: Camera2D, size: Vec2)
    requires cam.zoom != 0.0
    ensures var r := BoundingRectangle(cam, size);
            var m := ViewMatrix(cam, size, NoRotation);
            Apply(m, Vec2(r.x, r.y)) == Vec2(0.0, 0.0) &&
            Apply(m, Vec2(r.x + r.width, r.y + r.height)) == size
  {
    var r := BoundingRectangle(cam, size);
    var z := cam.zoom;
    ViewMatrixMapsPoint(cam, size, NoRotation, Vec2(r.x, r.y));
    ViewMatrixMapsPoint(cam, size, NoRotation, Vec2(r.x + r.width, r.y + r.height));
    assert z * (r.x - cam.position.x) == -(size.x * 0.5);
    assert z * (r.y - cam.position.y) == -(size.y * 0.5);
    assert z * (r.x + r.width - cam.position.x) == size.x * 0.5;
    assert z * (r.y + r.height - cam.position.y) == size.y * 0.5;
  }

  /** An 800 x 600 viewport seen by a camera at (400, 300) with zoom 2: the
      origin is (400, 300) and the visible world box is the middle quarter. */
  lemma ZoomedViewportScenario()
    ensures var cam := NewCamera(Vec2(400.0, 300.0), 0.0, 2.0);
            var size := Vec2(800.0, 600.0);
            Origin(size) == Vec2(400.0, 300.0) &&
            BoundingRectangle(cam, size) == RectangleF(200.0, 150.0, 400.0, 300.0)
  {
  }
}
