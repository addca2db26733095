/**
 * The viewer of components/pdf-viewer.tsx as a state machine. Each event
 * handler is one atomic transition of `PdfViewer`. The rendered page is left
 * to the rendering library; what the model keeps is the page number, the
 * zoom scale, the log of annotation records, the overlay elements on the
 * annotation layer and the pending click anchors.
 */
module Viewer {
  import opened Types

  /** The zoom scale in tenths: 1.0 at first, clamped to [0.5, 3], moved by 0.2. */
  const InitialScale: int := 10
  const MinScale: int := 5
  const MaxScale: int := 30
  const ScaleStep: int := 2

  /** A client rectangle of a selection range (`DOMRect`). */
  datatype Rect = Rect(left: int, top: int, width: int, height: int)

  /** The scroll container's bounding box origin and scroll offsets. */
  datatype ContainerBox = ContainerBox(left: int, top: int, scrollLeft: int, scrollTop: int)

  /** `window.getSelection()`: its text and the client rectangles of its first range. */
  datatype TextSelection = TextSelection(text: string, rects: seq<Rect>)

  /** The `AnnotationData` record; the optional fields are the ones the source leaves unset. */
  datatype AnnotationData = AnnotationData(
    kind: AnnotationType,
    pageNumber: int,
    x: int,
    y: int,
    width: Option<int>,
    height: Option<int>,
    color: Option<string>,
    text: Option<string>,
    imageDataUrl: Option<string>)

  /** What an overlay element shows. */
  datatype Visual =
    | HighlightBox(width: int, height: int, color: string)  // filled, opacity 0.3
    | UnderlineRule(width: int, color: string)              // height 0, 2px solid bottom border
    | SignatureImage(src: string)                           // at most 200 by 100
    | CommentCallout(text: string)

  /** An element placed on the annotation layer; `id` stands for its identity as a DOM node. */
  datatype Overlay = Overlay(id: nat, left: int, top: int, visual: Visual)

  // ---------------------------------------------------------------- page and zoom

  /** JavaScript truthiness of `numPages`: known and not zero. */
  predicate Known(numPages: Option<nat>) {
    numPages.Some? && numPages.value != 0
  }

  /** `Math.max(prev - 1, 1)`. */
  function PrevPage(page: int): (r: int)
    ensures 1 <= r <= Max(page, 1)
    ensures r == page - 1 || r == 1
  {
    Max(page - 1, 1)
  }

  /** `numPages ? Math.min(prev + 1, numPages) : prev`. */
  function NextPage(page: int, numPages: Option<nat>): (r: int)
    ensures !Known(numPages) ==> r == page
    ensures Known(numPages) ==> r <= numPages.value && (r == page + 1 || r == numPages.value)
  {
    if Known(numPages) then Min(page + 1, numPages.value) else page
  }

  /** `Math.min(prev + 0.2, 3)` in tenths. */
  function ZoomIn(scale: int): (r: int)
    ensures r <= MaxScale && (r == scale + ScaleStep || r == MaxScale)
  {
    Min(scale + ScaleStep, MaxScale)
  }

  /** `Math.max(prev - 0.2, 0.5)` in tenths. */
  function ZoomOut(scale: int): (r: int)
    ensures r >= MinScale && (r == scale - ScaleStep || r == MinScale)
  {
    Max(scale - ScaleStep, MinScale)
  }

  predicate PageInRange(page: int, numPages: Option<nat>) {
    1 <= page && (Known(numPages) ==> page <= numPages.value)
  }

  predicate ScaleInRange(scale: int) {
    MinScale <= scale <= MaxScale
  }

  datatype PageStep = Prev | Next
  datatype ZoomStep = In | Out

  /** The page after a run of Previous/Next clicks. */
  function PageAfter(page: int, numPages: Option<nat>, steps: seq<PageStep>): int
    decreases |steps|
  {
    if steps == [] then page
    else
      var p := if steps[0] == Prev then PrevPage(page) else NextPage(page, numPages);
      PageAfter(p, numPages, steps[1..])
  }

  /** The scale after a run of zoom clicks. */
  function ScaleAfter(scale: int, steps: seq<ZoomStep>): int
    decreases |steps|
  {
    if steps == [] then scale
    else ScaleAfter(if steps[0] == In then ZoomIn(scale) else ZoomOut(scale), steps[1..])
  }

  /**
   * One click on Previous or Next keeps the page in [1, numPages]; Previous
   * never moves forward, Next never moves back, and Next does nothing while
   * the page count is unknown.
   */
  lemma PageStepInRange(page: int, numPages: Option<nat>)
    requires PageInRange(page, numPages)
    ensures PageInRange(PrevPage(page), numPages) && PrevPage(page) <= page
    ensures PageInRange(NextPage(page, numPages), numPages) && NextPage(page, numPages) >= page
    ensures !Known(numPages) ==> NextPage(page, numPages) == page
    ensures PrevPage(page) == page <==> page == 1
  {
  }

  /** Any run of Previous/Next clicks keeps the page in [1, numPages]. */
  lemma {:induction false} PagesStayInRange(page: int, numPages: Option<nat>, steps: seq<PageStep>)
    requires PageInRange(page, numPages)
    ensures PageInRange(PageAfter(page, numPages, steps), numPages)
    decreases |steps|
  {
    if steps != [] {
      PageStepInRange(page, numPages);
      var p := if steps[0] == Prev then PrevPage(page) else NextPage(page, numPages);
      PagesStayInRange(p, numPages, steps[1..]);
    }
  }

  /** While the page count is unknown the page cannot leave 1. */
  lemma {:induction false} UnknownCountPinsFirstPage(numPages: Option<nat>, steps: seq<PageStep>)
    requires !Known(numPages)
    ensures PageAfter(1, numPages, steps) == 1
    decreases |steps|
  {
    if steps != [] {
      UnknownCountPinsFirstPage(numPages, steps[1..]);
    }
  }

  /** Zooming in at 3 and out at 0.5 are no-ops; within the bounds a click moves by 0.2 or to the bound. */
  lemma ZoomStepInRange(scale: int)
    requires ScaleInRange(scale)
    ensures ScaleInRange(ZoomIn(scale)) && ScaleInRange(ZoomOut(scale))
    ensures ZoomIn(scale) == scale <==> scale == MaxScale
    ensures ZoomOut(scale) == scale <==> scale == MinScale
  {
  }

  /** Any run of zoom clicks keeps the scale in [0.5, 3]. */
  lemma {:induction false} ScalesStayInRange(scale: int, steps: seq<ZoomStep>)
    requires ScaleInRange(scale)
    ensures ScaleInRange(ScaleAfter(scale, steps))
    decreases |steps|
  {
    if steps != [] {
      ZoomStepInRange(scale);
      ScalesStayInRange(if steps[0] == In then ZoomIn(scale) else ZoomOut(scale), steps[1..]);
    }
  }

  /** Clamping at 0.5 takes the scale off the 0.2 grid: three zoom-outs and one zoom-in from 1.0 give 0.7. */
  lemma ClampLeavesGrid()
    ensures ScaleAfter(InitialScale, [Out, Out, Out]) == MinScale
    ensures ScaleAfter(InitialScale, [Out, Out, Out, In]) == 7
  {
  }

  // ---------------------------------------------------------------- text selection

  /** A selection rectangle's origin in the container: client position minus container origin plus scroll. */
  function SelectionOrigin(rect: Rect, c: ContainerBox): Point {
    Point(rect.left - c.left + c.scrollLeft, rect.top - c.top + c.scrollTop)
  }

  /** The record `handleTextSelection` makes for one rectangle. */
  function SelectionRecord(tool: AnnotationType, page: int, color: string, c: ContainerBox, rect: Rect): AnnotationData {
    var o := SelectionOrigin(rect, c);
    AnnotationData(tool, page, o.x, o.y, Some(rect.width), Some(rect.height), Some(color), None, None)
  }

  /**
   * The element `handleTextSelection` places for one rectangle: a filled box
   * for a highlight, a zero-height rule moved down to the rectangle's bottom
   * edge for an underline.
   */
  function SelectionOverlay(id: nat, tool: AnnotationType, color: string, c: ContainerBox, rect: Rect): Overlay {
    var o := SelectionOrigin(rect, c);
    if tool == Underline then Overlay(id, o.x, o.y + rect.height, UnderlineRule(rect.width, color))
    else Overlay(id, o.x, o.y, HighlightBox(rect.width, rect.height, color))
  }

  /**
   * The records of one selection: one per rectangle, in rectangle order, each
   * tagged with the tool, the page and the colour, sized like its rectangle
   * and placed at its container-relative origin (the top, also for an underline).
   */
  function SelectionRecords(tool: AnnotationType, page: int, color: string, c: ContainerBox, rects: seq<Rect>): (r: seq<AnnotationData>)
    ensures |r| == |rects|
    ensures forall i :: 0 <= i < |rects| ==>
      && r[i].kind == tool && r[i].pageNumber == page && r[i].color == Some(color)
      && r[i].width == Some(rects[i].width) && r[i].height == Some(rects[i].height)
      && r[i].x == rects[i].left - c.left + c.scrollLeft
      && r[i].y == rects[i].top - c.top + c.scrollTop
      && r[i].text == None && r[i].imageDataUrl == None
  {
    seq(|rects|, i requires 0 <= i < |rects| => SelectionRecord(tool, page, color, c, rects[i]))
  }

  /** The elements of one selection, one per rectangle, numbered from `firstId` on. */
  function SelectionOverlays(firstId: nat, tool: AnnotationType, color: string, c: ContainerBox, rects: seq<Rect>): (r: seq<Overlay>)
    ensures |r| == |rects|
    ensures forall i :: 0 <= i < |rects| ==>
      r[i].id == firstId + i && r[i].left == rects[i].left - c.left + c.scrollLeft
    ensures tool == Underline ==> forall i :: 0 <= i < |rects| ==>
      r[i].top == rects[i].top - c.top + c.scrollTop + rects[i].height
      && r[i].visual == UnderlineRule(rects[i].width, color)
    ensures tool != Underline ==> forall i :: 0 <= i < |rects| ==>
      r[i].top == rects[i].top - c.top + c.scrollTop
      && r[i].visual == HighlightBox(rects[i].width, rects[i].height, color)
  {
    seq(|rects|, i requires 0 <= i < |rects| => SelectionOverlay(firstId + i, tool, color, c, rects[i]))
  }

  /** One more rectangle adds one more record at the end. */
  lemma SelectionRecordsSnoc(tool: AnnotationType, page: int, color: string, c: ContainerBox, rects: seq<Rect>, i: nat)
    requires i < |rects|
    ensures SelectionRecords(tool, page, color, c, rects[..i + 1])
         == SelectionRecords(tool, page, color, c, rects[..i]) + [SelectionRecord(tool, page, color, c, rects[i])]
  {
  }

  /** One more rectangle adds one more element at the end. */
  lemma SelectionOverlaysSnoc(firstId: nat, tool: AnnotationType, color: string, c: ContainerBox, rects: seq<Rect>, i: nat)
    requires i < |rects|
    ensures SelectionOverlays(firstId, tool, color, c, rects[..i + 1])
         == SelectionOverlays(firstId, tool, color, c, rects[..i]) + [SelectionOverlay(firstId + i, tool, color, c, rects[i])]
  {
  }

  // ---------------------------------------------------------------- overlay elements

  /**
   * `el.remove()` for the element numbered `id`: exactly the elements with
   * other numbers stay, in their order (see `DetachConcat`).
   */
  function Detach(layer: seq<Overlay>, id: nat): (r: seq<Overlay>)
    ensures forall x :: x in r <==> x in layer && x.id != id
    ensures (forall k :: 0 <= k < |layer| ==> layer[k].id != id) ==> r == layer
  {
    if layer == [] then []
    else (if layer[0].id == id then [] else [layer[0]]) + Detach(layer[1..], id)
  }

  /**
   * Detaching works piece by piece along the layer, so the elements that stay
   * keep their relative order.
   */
  lemma {:induction false} DetachConcat(a: seq<Overlay>, b: seq<Overlay>, id: nat)
    ensures Detach(a + b, id) == Detach(a, id) + Detach(b, id)
    decreases |a|
  {
    if a == [] {
      assert a + b == b;
    } else {
      assert (a + b)[0] == a[0] && (a + b)[1..] == a[1..] + b;
      DetachConcat(a[1..], b, id);
    }
  }

  /** Element numbers strictly increase along the list and stay below `next`. */
  predicate NumberedBelow(elements: seq<Overlay>, next: nat) {
    && (forall j, k :: 0 <= j < k < |elements| ==> elements[j].id < elements[k].id)
    && (forall k :: 0 <= k < |elements| ==> elements[k].id < next)
  }

  class PdfViewer {
    var numPages: Option<nat>
    var pageNumber: int
    /** In tenths. */
    var scale: int
    var showSignatureCanvas: bool
    var signaturePosition: Option<Point>
    var showCommentDialog: bool
    var commentPosition: Option<Point>
    /** `annotationData`: every record made so far. */
    var annotationData: seq<AnnotationData>
    /** `annotationDomElements`: the elements created since the page last changed. */
    var overlays: seq<Overlay>
    /** The children of the annotation layer, which is what is displayed. */
    var layer: seq<Overlay>
    /** The number the next created element gets. */
    var nextId: nat

    /**
     * The page is in [1, numPages] and stays 1 while the count is unknown;
     * the scale is in [0.5, 3]; the layer shows exactly the elements listed.
     */
    ghost predicate Valid()
      reads this
    {
      && PageInRange(pageNumber, numPages)
      && (!Known(numPages) ==> pageNumber == 1)
      && ScaleInRange(scale)
      && layer == overlays
      && NumberedBelow(overlays, nextId)
    }

    constructor ()
      ensures Valid()
      ensures numPages == None && pageNumber == 1 && scale == InitialScale
      ensures !showSignatureCanvas && signaturePosition == None
      ensures !showCommentDialog && commentPosition == None
      ensures annotationData == [] && overlays == [] && layer == []
    {
      numPages := None;
      pageNumber := 1;
      scale := InitialScale;
      showSignatureCanvas, signaturePosition := false, None;
      showCommentDialog, commentPosition := false, None;
      annotationData, overlays, layer := [], [], [];
      nextId := 0;
    }

    /**
     * `onDocumentLoadSuccess`. The viewer's URL cannot change while it is
     * shown, so a repeated load reports the same page count.
     */
    method DocumentLoaded(n: nat)
      requires Valid()
      requires numPages == None || numPages == Some(n)
      modifies this`numPages
      ensures Valid()
      ensures numPages == Some(n)
    {
      numPages := Some(n);
    }

    /**
     * The effect on `[pageNumber]`: every listed element is removed from the
     * layer, then the list is forgotten. Records are not touched.
     */
    method PageChanged()
      requires layer == overlays && NumberedBelow(overlays, nextId)
      modifies this`layer, this`overlays
      ensures layer == [] && overlays == []
    {
      var elements := overlays;
      var i := 0;
      while i < |elements|
        invariant 0 <= i <= |elements|
        invariant layer == elements[i..]
      {
        assert elements[i..] == [elements[i]] + elements[i + 1..];
        assert Detach(elements[i + 1..], elements[i].id) == elements[i + 1..];
        layer := Detach(layer, elements[i].id);
        i := i + 1;
      }
      overlays := [];
    }

    /** `handlePrevPage`, followed by the page effect when the page moved. */
    method HandlePrevPage()
      requires Valid()
      modifies this`pageNumber, this`layer, this`overlays
      ensures Valid()
      ensures pageNumber == PrevPage(old(pageNumber))
      ensures pageNumber != old(pageNumber) ==> overlays == [] && layer == []
      ensures pageNumber == old(pageNumber) ==> overlays == old(overlays) && layer == old(layer)
    {
      var p := PrevPage(pageNumber);
      if p != pageNumber {
        pageNumber := p;
        PageChanged();
      }
    }

    /** `handleNextPage`, followed by the page effect when the page moved. */
    method HandleNextPage()
      requires Valid()
      modifies this`pageNumber, this`layer, this`overlays
      ensures Valid()
      ensures pageNumber == NextPage(old(pageNumber), numPages)
      ensures pageNumber != old(pageNumber) ==> overlays == [] && layer == []
      ensures pageNumber == old(pageNumber) ==> overlays == old(overlays) && layer == old(layer)
    {
      var p := NextPage(pageNumber, numPages);
      if p != pageNumber {
        pageNumber := p;
        PageChanged();
      }
    }

    /** `handleZoomIn`. */
    method HandleZoomIn()
      requires Valid()
      modifies this`scale
      ensures Valid()
      ensures scale == ZoomIn(old(scale))
    {
      scale := ZoomIn(scale);
    }

    /** `handleZoomOut`. */
    method HandleZoomOut()
      requires Valid()
      modifies this`scale
      ensures Valid()
      ensures scale == ZoomOut(old(scale))
    {
      scale := ZoomOut(scale);
    }

    /**
     * `handleContainerClick`: the anchor is the click minus the container's
     * origin (no scroll offset). The signature tool stores it and opens the
     * pad, the comment tool stores it and opens the prompt, any other tool
     * does nothing.
     */
    method HandleContainerClick(tool: AnnotationType, click: Point, container: ContainerBox)
      requires Valid()
      modifies this`signaturePosition, this`showSignatureCanvas, this`commentPosition, this`showCommentDialog
      ensures Valid()
      ensures var anchor := Point(click.x - container.left, click.y - container.top);
        && (tool == Signature ==>
              signaturePosition == Some(anchor) && showSignatureCanvas
              && commentPosition == old(commentPosition) && showCommentDialog == old(showCommentDialog))
        && (tool == Comment ==>
              commentPosition == Some(anchor) && showCommentDialog
              && signaturePosition == old(signaturePosition) && showSignatureCanvas == old(showSignatureCanvas))
      ensures tool != Signature && tool != Comment ==>
        && signaturePosition == old(signaturePosition) && showSignatureCanvas == old(showSignatureCanvas)
        && commentPosition == old(commentPosition) && showCommentDialog == old(showCommentDialog)
    {
      var anchor := Point(click.x - container.left, click.y - container.top);
      if tool == Signature {
        signaturePosition := Some(anchor);
        showSignatureCanvas := true;
      } else if tool == Comment {
        commentPosition := Some(anchor);
        showCommentDialog := true;
      }
    }

    /**
     * `handleTextSelection` (mouse up). With the highlight or underline tool
     * and a non-empty selection of N rectangles it appends N records and N
     * elements in rectangle order and clears the selection (`cleared`);
     * otherwise it changes nothing.
     */
    method HandleTextSelection(tool: AnnotationType, color: string, selection: Option<TextSelection>, container: ContainerBox)
      returns (cleared: bool)
      requires Valid()
      modifies this`annotationData, this`overlays, this`layer, this`nextId
      ensures Valid()
      ensures cleared <==>
        (tool == Highlight || tool == Underline) && selection.Some?
        && |selection.value.text| > 0 && |selection.value.rects| > 0
      ensures cleared ==>
        && annotationData == old(annotationData) + SelectionRecords(tool, pageNumber, color, container, selection.value.rects)
        && overlays == old(overlays) + SelectionOverlays(old(nextId), tool, color, container, selection.value.rects)
      ensures !cleared ==>
        annotationData == old(annotationData) && overlays == old(overlays) && nextId == old(nextId)
    {
      cleared := false;
      if tool != Highlight && tool != Underline {
        return;
      }
      if selection.None? || |selection.value.text| == 0 {
        return;
      }
      var rects := selection.value.rects;
      if |rects| == 0 {
        return;
      }

      var i := 0;
      while i < |rects|
        invariant 0 <= i <= |rects|
        invariant nextId == old(nextId) + i
        invariant layer == overlays && NumberedBelow(overlays, nextId)
        invariant annotationData == old(annotationData) + SelectionRecords(tool, pageNumber, color, container, rects[..i])
        invariant overlays == old(overlays) + SelectionOverlays(old(nextId), tool, color, container, rects[..i])
      {
        var rect := rects[i];
        var element := SelectionOverlay(nextId, tool, color, container, rect);
        SelectionRecordsSnoc(tool, pageNumber, color, container, rects, i);
        SelectionOverlaysSnoc(old(nextId), tool, color, container, rects, i);
        layer := layer + [element];
        overlays := overlays + [element];
        nextId := nextId + 1;
        annotationData := annotationData + [SelectionRecord(tool, pageNumber, color, container, rect)];
        i := i + 1;
      }
      assert rects[..i] == rects;
      cleared := true;
    }

    /**
     * `handleAddSignature`: without a stored anchor nothing happens; otherwise
     * one image element and one signature record at the anchor are added and
     * the pad is closed.
     */
    method HandleAddSignature(dataUrl: string)
      requires Valid()
      modifies this`annotationData, this`overlays, this`layer, this`nextId, this`showSignatureCanvas
      ensures Valid()
      ensures signaturePosition.None? ==>
        && annotationData == old(annotationData) && overlays == old(overlays)
        && nextId == old(nextId) && showSignatureCanvas == old(showSignatureCanvas)
      ensures signaturePosition.Some? ==>
        var p := signaturePosition.value;
        && annotationData == old(annotationData) + [AnnotationData(Signature, pageNumber, p.x, p.y, None, None, None, None, Some(dataUrl))]
        && overlays == old(overlays) + [Overlay(old(nextId), p.x, p.y, SignatureImage(dataUrl))]
        && !showSignatureCanvas
    {
      if signaturePosition.None? {
        return;
      }
      var p := signaturePosition.value;
      var img := Overlay(nextId, p.x, p.y, SignatureImage(dataUrl));
      layer := layer + [img];
      overlays := overlays + [img];
      nextId := nextId + 1;
      annotationData := annotationData + [AnnotationData(Signature, pageNumber, p.x, p.y, None, None, None, None, Some(dataUrl))];
      showSignatureCanvas := false;
    }

    /**
     * `handleAddComment`: without a stored anchor nothing happens; otherwise
     * one callout element and one comment record at the anchor are added and
     * the prompt is closed.
     */
    method HandleAddComment(comment: string)
      requires Valid()
      modifies this`annotationData, this`overlays, this`layer, this`nextId, this`showCommentDialog
      ensures Valid()
      ensures commentPosition.None? ==>
        && annotationData == old(annotationData) && overlays == old(overlays)
        && nextId == old(nextId) && showCommentDialog == old(showCommentDialog)
      ensures commentPosition.Some? ==>
        var p := commentPosition.value;
        && annotationData == old(annotationData) + [AnnotationData(Comment, pageNumber, p.x, p.y, None, None, None, Some(comment), None)]
        && overlays == old(overlays) + [Overlay(old(nextId), p.x, p.y, CommentCallout(comment))]
        && !showCommentDialog
    {
      if commentPosition.None? {
        return;
      }
      var p := commentPosition.value;
      var callout := Overlay(nextId, p.x, p.y, CommentCallout(comment));
      layer := layer + [callout];
      overlays := overlays + [callout];
      nextId := nextId + 1;
      annotationData := annotationData + [AnnotationData(Comment, pageNumber, p.x, p.y, None, None, None, Some(comment), None)];
      showCommentDialog := false;
    }

    /** The pad's `onCancel`: only hides the pad. */
    method CancelSignature()
      requires Valid()
      modifies this`showSignatureCanvas
      ensures !showSignatureCanvas
      ensures Valid()
    {
      showSignatureCanvas := false;
    }

    /** The prompt's `onCancel`: only hides the prompt. */
    method CancelComment()
      requires Valid()
      modifies this`showCommentDialog
      ensures !showCommentDialog
      ensures Valid()
    {
      showCommentDialog := false;
    }
  }

  /**
   * A three-page document: a two-line highlight on page 1 gives two records
   * for page 1 in the current colour; going to page 2 and back leaves the
   * layer empty while the records stay.
   */
  method HighlightThenNavigate(line1: Rect, line2: Rect, container: ContainerBox)
  {
    var v := new PdfViewer();
    v.DocumentLoaded(3);
    var cleared := v.HandleTextSelection(Highlight, "#FFFF00", Some(TextSelection("two lines", [line1, line2])), container);
    assert cleared;
    assert |v.annotationData| == 2 && |v.layer| == 2;
    assert v.annotationData[0].pageNumber == 1 && v.annotationData[1].pageNumber == 1;
    assert v.annotationData[1].color == Some("#FFFF00");
    v.HandleNextPage();
    assert v.pageNumber == 2 && v.layer == [];
    v.HandlePrevPage();
    assert v.pageNumber == 1 && v.layer == [] && |v.annotationData| == 2;
  }
}
