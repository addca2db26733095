/**
 * The drawing pad of components/signature-canvas.tsx. The 400x200 canvas is
 * modelled by the list of line segments stroked on it since it was last
 * cleared; `hasCanvas` says whether the canvas element (and its 2D context)
 * is present.
 */
module SignaturePad {
  import opened Types

  const CanvasWidth: nat := 400
  const CanvasHeight: nat := 200

  datatype LineCap = Butt | Round | Square

  /** The stroke style of a segment. */
  datatype Pen = Pen(color: string, width: nat, cap: LineCap)

  /** Every segment is stroked black, 2 pixels wide, with round caps. */
  const Ink := Pen("#000", 2, Round)

  datatype Segment = Segment(from: Point, to: Point, pen: Pen)

  /** The cursor's position relative to the canvas' bounding box. */
  function CanvasPoint(client: Point, canvasOrigin: Point): (p: Point)
    ensures p.x + canvasOrigin.x == client.x && p.y + canvasOrigin.y == client.y
  {
    Point(client.x - canvasOrigin.x, client.y - canvasOrigin.y)
  }

  class SignatureCanvas {
    const hasCanvas: bool
    var isDrawing: bool
    var lastX: int
    var lastY: int
    /** The segments on the surface since the last clear, in drawing order. */
    var surface: seq<Segment>
    /** Indices of `surface` at which a stroke began (a `startDrawing`). */
    ghost var strokeStarts: set<nat>

    /**
     * All ink is black, width 2, round; within a stroke each segment starts
     * where the previous one ended; and while drawing, the last segment of
     * the stroke ends at the remembered point.
     */
    ghost predicate Valid()
      reads this
    {
      && (forall i :: 0 <= i < |surface| ==> surface[i].pen == Ink)
      && (forall i :: 0 < i < |surface| && i !in strokeStarts ==> surface[i - 1].to == surface[i].from)
      && (isDrawing && 0 < |surface| && |surface| !in strokeStarts ==>
            surface[|surface| - 1].to == Point(lastX, lastY))
    }

    constructor (hasCanvas: bool)
      ensures Valid()
      ensures this.hasCanvas == hasCanvas
      ensures !isDrawing && lastX == 0 && lastY == 0 && surface == [] && strokeStarts == {}
    {
      this.hasCanvas := hasCanvas;
      isDrawing := false;
      lastX, lastY := 0, 0;
      surface := [];
      strokeStarts := {};
    }

    /** `startDrawing` (mouse down). */
    method StartDrawing(client: Point, canvasOrigin: Point)
      requires Valid()
      modifies this
      ensures Valid()
      ensures surface == old(surface)
      ensures hasCanvas ==> isDrawing && Point(lastX, lastY) == CanvasPoint(client, canvasOrigin)
      ensures !hasCanvas ==> isDrawing == old(isDrawing) && lastX == old(lastX) && lastY == old(lastY)
      ensures strokeStarts == if hasCanvas then old(strokeStarts) + {|surface|} else old(strokeStarts)
    {
      if !hasCanvas {
        return;
      }
      var p := CanvasPoint(client, canvasOrigin);
      isDrawing := true;
      lastX, lastY := p.x, p.y;
      strokeStarts := strokeStarts + {|surface|};
    }

    /** `draw` (mouse move): one segment from the last point to the cursor, which becomes the last point. */
    method Draw(client: Point, canvasOrigin: Point)
      requires Valid()
      modifies this
      ensures Valid()
      ensures isDrawing == old(isDrawing) && strokeStarts == old(strokeStarts)
      ensures !(old(isDrawing) && hasCanvas) ==>
        surface == old(surface) && lastX == old(lastX) && lastY == old(lastY)
      ensures old(isDrawing) && hasCanvas ==>
        var p := CanvasPoint(client, canvasOrigin);
        && surface == old(surface) + [Segment(Point(old(lastX), old(lastY)), p, Ink)]
        && Point(lastX, lastY) == p
    {
      if !isDrawing {
        return;
      }
      if !hasCanvas {
        return;
      }
      var p := CanvasPoint(client, canvasOrigin);
      surface := surface + [Segment(Point(lastX, lastY), p, Ink)];
      lastX, lastY := p.x, p.y;
    }

    /** `stopDrawing`, wired to both mouse up and mouse out. */
    method StopDrawing()
      requires Valid()
      modifies this
      ensures Valid()
      ensures !isDrawing
      ensures surface == old(surface) && lastX == old(lastX) && lastY == old(lastY)
      ensures strokeStarts == old(strokeStarts)
    {
      isDrawing := false;
    }

    /** `clearCanvas`: wipes the whole surface and nothing else. */
    method ClearCanvas()
      requires Valid()
      modifies this
      ensures Valid()
      ensures hasCanvas ==> surface == [] && strokeStarts == {}
      ensures !hasCanvas ==> surface == old(surface) && strokeStarts == old(strokeStarts)
      ensures isDrawing == old(isDrawing) && lastX == old(lastX) && lastY == old(lastY)
    {
      if !hasCanvas {
        return;
      }
      surface := [];
      strokeStarts := {};
    }

    /**
     * `saveSignature`: the image handed to `onSave` once, which is the
     * surface as it stands; the surface is left as it is.
     */
    method SaveSignature() returns (image: Option<seq<Segment>>)
      ensures hasCanvas <==> image.Some?
      ensures hasCanvas ==> image.value == surface
    {
      if !hasCanvas {
        return None;
      }
      image := Some(surface);
    }
  }
}
