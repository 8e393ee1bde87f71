/**
 * The freehand signature pad: a drawing surface that records strokes while
 * the pointer or finger is down and reports the drawing, encoded as an
 * image, to its owner when a stroke ends or the surface is cleared.
 */
module Signature {
  import opened Common

  /** A position in CSS pixels. */
  datatype Point = Point(x: real, y: real)

  /** The surface's bounding box on screen, in CSS pixels. */
  datatype Rect = Rect(left: real, top: real, width: real, height: real)

  datatype TouchPoint = TouchPoint(clientX: real, clientY: real)

  /** A mouse event, or a touch event with its list of touch points. */
  datatype PointerEvent = Mouse(clientX: real, clientY: real) | Touch(touches: seq<TouchPoint>)

  /**
   * The event's position relative to the surface: a mouse event's own
   * position, or a touch event's first touch point.
   */
  function Coordinates(e: PointerEvent, rect: Rect): (p: Point)
    requires e.Touch? ==> |e.touches| > 0
    ensures e.Mouse? ==> p.x + rect.left == e.clientX && p.y + rect.top == e.clientY
    ensures e.Touch? ==> p.x + rect.left == e.touches[0].clientX && p.y + rect.top == e.touches[0].clientY
  {
    match e
    case Touch(touches) => Point(touches[0].clientX - rect.left, touches[0].clientY - rect.top)
    case Mouse(x, y) => Point(x - rect.left, y - rect.top)
  }

  /** A touch lands where a mouse event at its first touch point would; later touch points play no part. */
  lemma TouchLikeMouse(t: TouchPoint, rest: seq<TouchPoint>, rect: Rect)
    ensures Coordinates(Touch([t] + rest), rect) == Coordinates(Mouse(t.clientX, t.clientY), rect)
  {
  }

  /** What the surface shows: a loaded image, or a straight segment stroked along a path. */
  datatype Mark = Image(data: string) | Segment(from: Point, to: Point)

  /** The segments `stroke()` paints for a path: one between each point and the next. */
  function PathSegments(path: seq<Point>): (r: set<Mark>)
    ensures forall m :: m in r ==> m.Segment?
    ensures |path| <= 1 ==> r == {}
  {
    set i {:trigger path[i]} | 0 <= i < |path| - 1 :: Segment(path[i], path[i + 1])
  }

  /** Extending a path by a point adds exactly the one segment that reaches it. */
  lemma PathSegmentsExtend(path: seq<Point>, p: Point)
    requires |path| >= 1
    ensures PathSegments(path + [p]) == PathSegments(path) + {Segment(path[|path| - 1], p)}
  {
    var q := path + [p];
    forall m | m in PathSegments(q) ensures m in PathSegments(path) + {Segment(path[|path| - 1], p)} {
      var i :| 0 <= i < |q| - 1 && m == Segment(q[i], q[i + 1]);
      if i < |path| - 1 {
        assert m == Segment(path[i], path[i + 1]);
      }
    }
    forall m | m in PathSegments(path) ensures m in PathSegments(q) {
      var i :| 0 <= i < |path| - 1 && m == Segment(path[i], path[i + 1]);
      assert m == Segment(q[i], q[i + 1]);
    }
    assert Segment(q[|path| - 1], q[|path|]) in PathSegments(q);
  }

  /**
   * One mounted pad. `rect` is the surface's box when it was mounted, `ink`
   * what the surface shows, `path` the drawing context's current path, and
   * `emitted` every value passed to the change callback, oldest first.
   * `toDataURL` stands for the canvas encoder.
   */
  class SignaturePad {
    var rect: Rect
    var backingWidth: real
    var backingHeight: real
    var scale: real
    var isDrawing: bool
    var hasSignature: bool
    var path: seq<Point>
    var ink: set<Mark>
    var emitted: seq<Option<string>>
    var pendingImage: Option<string>
    const toDataURL: set<Mark> -> string

    /**
     * The backing store is twice the surface in each direction and drawing is
     * scaled by two; a stroke in progress has a starting point; a pad that
     * counts as signed shows something.
     */
    ghost predicate Valid()
      reads this
    {
      backingWidth == 2.0 * rect.width && backingHeight == 2.0 * rect.height && scale == 2.0
      && (isDrawing ==> |path| >= 1)
      && (hasSignature ==> ink != {})
    }

    /** The placeholder text shows exactly while the pad is unsigned; once it is gone, the surface shows something. */
    predicate ShowsPlaceholder(): (b: bool)
      reads this
      ensures b <==> !hasSignature
      ensures Valid() && !b ==> ink != {}
    {
      !hasSignature
    }

    /**
     * Mounting the pad on a surface with bounding box `rect`: the backing store
     * is sized, the context scaled, and a supplied initial image starts loading.
     */
    constructor(rect: Rect, initialSignature: Option<string>, toDataURL: set<Mark> -> string)
      ensures Valid()
      ensures this.rect == rect && this.toDataURL == toDataURL
      ensures backingWidth == 2.0 * rect.width && backingHeight == 2.0 * rect.height && scale == 2.0
      ensures !isDrawing && !hasSignature && ShowsPlaceholder()
      ensures ink == {} && path == [] && emitted == []
      ensures pendingImage == (if SignaturePresent(initialSignature) then initialSignature else None)
    {
      this.rect := rect;
      backingWidth := rect.width * 2.0;
      backingHeight := rect.height * 2.0;
      scale := 2.0;
      isDrawing, hasSignature := false, false;
      path, ink, emitted := [], {}, [];
      pendingImage := if SignaturePresent(initialSignature) then initialSignature else None;
      this.toDataURL := toDataURL;
    }

    /** The initial image finished loading: it is drawn and the pad counts as signed. */
    method InitialImageLoaded()
      requires Valid() && pendingImage.Some?
      modifies this`ink, this`hasSignature, this`pendingImage
      ensures Valid()
      ensures ink == old(ink) + {Image(old(pendingImage).value)}
      ensures hasSignature && !ShowsPlaceholder() && pendingImage.None?
    {
      ink := ink + {Image(pendingImage.value)};
      hasSignature := true;
      pendingImage := None;
    }

    /**
     * Pointer or finger down, with the surface at `box` on screen: a fresh
     * path begins at the event's position.
     */
    method StartDrawing(e: PointerEvent, box: Rect)
      requires Valid() && (e.Touch? ==> |e.touches| > 0)
      modifies this`path, this`isDrawing
      ensures Valid()
      ensures isDrawing && path == [Coordinates(e, box)]
    {
      var p := Coordinates(e, box);
      path := [p];
      isDrawing := true;
    }

    /**
     * Pointer or finger moves, with the surface at `box`. While a stroke is active the path is extended
     * to the event's position and stroked, and the pad counts as signed;
     * otherwise nothing changes.
     */
    method Draw(e: PointerEvent, box: Rect)
      requires Valid() && (e.Touch? ==> |e.touches| > 0)
      modifies this`path, this`ink, this`hasSignature
      ensures Valid()
      ensures !old(isDrawing) ==> path == old(path) && ink == old(ink) && hasSignature == old(hasSignature)
      ensures old(isDrawing) ==> (
        path == old(path) + [Coordinates(e, box)]
        && ink == old(ink) + PathSegments(old(path)) + {Segment(old(path)[|old(path)| - 1], Coordinates(e, box))}
        && hasSignature)
    {
      if !isDrawing {
        return;
      }
      var p := Coordinates(e, box);
      PathSegmentsExtend(path, p);
      path := path + [p];
      ink := ink + PathSegments(path);
      hasSignature := true;
    }

    /**
     * Pointer or finger up, or the pointer leaving the surface. An active
     * stroke ends and the current drawing is reported once; otherwise nothing
     * happens.
     */
    method StopDrawing()
      requires Valid()
      modifies this`isDrawing, this`emitted
      ensures Valid() && !isDrawing
      ensures old(isDrawing) ==> emitted == old(emitted) + [Some(toDataURL(ink))]
      ensures !old(isDrawing) ==> emitted == old(emitted)
    {
      if isDrawing {
        isDrawing := false;
        emitted := emitted + [Some(toDataURL(ink))];
      }
    }

    /** The clear button: the surface is wiped, the pad is unsigned, and `null` is reported. */
    method ClearSignature()
      requires Valid()
      modifies this`ink, this`hasSignature, this`emitted
      ensures Valid()
      ensures ink == {} && !hasSignature && ShowsPlaceholder()
      ensures emitted == old(emitted) + [None]
    {
      ink := {};
      hasSignature := false;
      emitted := emitted + [None];
    }
  }
}
