/** The annotation session of the editor screen: pointer mapping, hit-testing, the
    gesture state machine driven by mouse-down, mouse-move and mouse-up, property
    updates and deletion of the selected annotation, and the geometry the overlay
    canvas draws. */
module Editor {
  import opened Types
  import PdfService

  // ---------------------------------------------------------------------------
  // Pointer mapping
  // ---------------------------------------------------------------------------

  /** The overlay canvas: its on-screen bounding rectangle and its pixel size. */
  datatype OverlayBox = OverlayBox(left: real, top: real, rectWidth: real, rectHeight: real,
                                   canvasWidth: real, canvasHeight: real)

  /** An overlay whose on-screen rectangle has a size to divide by. */
  predicate Measurable(overlay: Option<OverlayBox>) {
    overlay.Some? ==> overlay.value.rectWidth != 0.0 && overlay.value.rectHeight != 0.0
  }

  /** `getMousePos`: a client position in overlay pixels, each axis scaled on its own;
      (0, 0) when there is no overlay. */
  function MousePos(client: Point, overlay: Option<OverlayBox>): (p: Point)
    requires Measurable(overlay)
    ensures overlay.None? ==> p == Point(0.0, 0.0)
    ensures overlay.Some? ==>
      && p.x * overlay.value.rectWidth == (client.x - overlay.value.left) * overlay.value.canvasWidth
      && p.y * overlay.value.rectHeight == (client.y - overlay.value.top) * overlay.value.canvasHeight
  {
    match overlay
    case None => Point(0.0, 0.0)
    case Some(o) =>
      Point((client.x - o.left) * (o.canvasWidth / o.rectWidth),
            (client.y - o.top) * (o.canvasHeight / o.rectHeight))
  }

  /** A click at fraction `fx` of the displayed width and `fy` of the displayed height
      lands at the same fractions of the canvas size. */
  lemma MousePosFraction(client: Point, o: OverlayBox, fx: real, fy: real)
    requires o.rectWidth != 0.0 && o.rectHeight != 0.0
    requires client.x == o.left + fx * o.rectWidth && client.y == o.top + fy * o.rectHeight
    ensures MousePos(client, Some(o)) == Point(fx * o.canvasWidth, fy * o.canvasHeight)
  {
    var p := MousePos(client, Some(o));
    assert p.x * o.rectWidth == (fx * o.canvasWidth) * o.rectWidth;
    assert p.y * o.rectHeight == (fy * o.canvasHeight) * o.rectHeight;
  }

  // ---------------------------------------------------------------------------
  // Hit-testing
  // ---------------------------------------------------------------------------

  /** The anchor of `a` is on `page` and strictly within 20 pixels of `pos` on each axis. */
  predicate NearAnchor(a: Annotation, page: int, pos: Point) {
    a.pageIndex == page && Abs(a.x - pos.x) < 20.0 && Abs(a.y - pos.y) < 20.0
  }

  /** The index of the first annotation, in array order, near `pos` on `page`. */
  function FirstHit(anns: seq<Annotation>, page: int, pos: Point): (r: Option<nat>)
    ensures r.Some? ==> r.value < |anns| && NearAnchor(anns[r.value], page, pos)
    ensures r.Some? ==> forall j :: 0 <= j < r.value ==> !NearAnchor(anns[j], page, pos)
    ensures r.None? <==> forall j :: 0 <= j < |anns| ==> !NearAnchor(anns[j], page, pos)
    decreases |anns|
  {
    if anns == [] then None
    else if NearAnchor(anns[0], page, pos) then Some(0)
    else match FirstHit(anns[1..], page, pos)
      case None => None
      case Some(k) => Some(k + 1)
  }

  /** The selection a pointer-tool click makes: the id of the first hit, or none. */
  function HitId(anns: seq<Annotation>, page: int, pos: Point): (r: Option<string>)
    ensures r.None? <==> forall i :: 0 <= i < |anns| ==> !NearAnchor(anns[i], page, pos)
    ensures r.Some? ==> exists i :: 0 <= i < |anns| && anns[i].id == r.value && NearAnchor(anns[i], page, pos) &&
                                    forall j :: 0 <= j < i ==> !NearAnchor(anns[j], page, pos)
  {
    match FirstHit(anns, page, pos)
    case None => None
    case Some(i) => Some(anns[i].id)
  }

  /** Annotations on other pages are never hit, however close their anchors are. */
  lemma HitIgnoresOtherPages(anns: seq<Annotation>, page: int, pos: Point, i: nat)
    requires i < |anns| && anns[i].pageIndex != page
    ensures FirstHit(anns, page, pos) != Some(i)
  {
  }

  // ---------------------------------------------------------------------------
  // Creating annotations
  // ---------------------------------------------------------------------------

  /** The text annotation a text-tool click creates with the entered content. */
  function TextAnnotation(id: string, pos: Point, content: string, page: int, color: string, thickness: real,
                          fontSize: real, fontFamily: string, alignment: TextAlignment): (a: Annotation)
    ensures a.kind == Text && a.id == id && Point(a.x, a.y) == pos && a.pageIndex == page
    ensures a.content == Some(content) && a.width.None? && a.height.None? && a.points.None?
    ensures a.color == color && a.thickness == thickness
    ensures a.fontSize == Some(fontSize) && a.fontFamily == Some(fontFamily) && a.alignment == Some(alignment)
  {
    Annotation(id, Text, pos.x, pos.y, None, None, Some(content), page, color, thickness,
               Some(fontSize), Some(fontFamily), Some(alignment), None)
  }

  /** The tools whose drag creates a shape on mouse-up. */
  predicate IsShapeTool(t: EditorTool) {
    t == Square || t == Circle || t == Line || t == Draw
  }

  /** The shape a drag from `start` along `path` creates: anchored at the start, with
      the signed extent to the last point of the path. */
  function ShapeAnnotation(id: string, tool: EditorTool, start: Point, path: seq<Point>, page: int,
                           color: string, thickness: real): (a: Annotation)
    requires |path| > 0
    ensures a.kind == tool && a.id == id && a.pageIndex == page && a.color == color && a.thickness == thickness
    ensures Point(a.x, a.y) == start && a.width.Some? && a.height.Some?
    ensures a.x + a.width.value == path[|path| - 1].x && a.y + a.height.value == path[|path| - 1].y
    ensures a.points == Some(if tool == Line then [start, path[|path| - 1]] else path)
    ensures a.content.None? && a.fontSize.None? && a.fontFamily.None? && a.alignment.None?
  {
    var end := path[|path| - 1];
    Annotation(id, tool, start.x, start.y, Some(end.x - start.x), Some(end.y - start.y), None, page,
               color, thickness, None, None, None, Some(if tool == Line then [start, end] else path))
  }

  /** Dragging from (10, 10) to (5, 30) gives anchor (10, 10), width -5 and height 20. */
  lemma DragUpLeftIsSigned(id: string, page: int, color: string, thickness: real)
    ensures var a := ShapeAnnotation(id, Square, Point(10.0, 10.0), [Point(10.0, 10.0), Point(5.0, 30.0)],
                                     page, color, thickness);
      a.x == 10.0 && a.y == 10.0 && a.width == Some(-5.0) && a.height == Some(20.0)
  {
  }

  /** The point lists the overlay can draw: a freehand stroke needs a first point and
      a line needs two (the overlay reads them without checking). */
  predicate Drawable(a: Annotation) {
    && (a.kind == Draw && a.points.Some? ==> |a.points.value| >= 1)
    && (a.kind == Line && a.points.Some? ==> |a.points.value| >= 2)
  }

  // ---------------------------------------------------------------------------
  // Updating and deleting
  // ---------------------------------------------------------------------------

  /** The properties the side panel edits (colour, text, size, font, alignment and
      thickness); a present field overwrites the annotation's. */
  datatype Patch = Patch(color: Option<string>, thickness: Option<real>, content: Option<string>,
                         fontSize: Option<real>, fontFamily: Option<string>, alignment: Option<TextAlignment>)

  function Override<T>(prev: Option<T>, patch: Option<T>): Option<T> {
    if patch.Some? then patch else prev
  }

  /** `{ ...a, ...updates }`. */
  function Merge(a: Annotation, u: Patch): (b: Annotation)
    ensures b.id == a.id && b.kind == a.kind && b.x == a.x && b.y == a.y && b.pageIndex == a.pageIndex
    ensures b.width == a.width && b.height == a.height && b.points == a.points
    ensures u.color.Some? ==> b.color == u.color.value
    ensures u.color.None? ==> b.color == a.color
    ensures u.thickness.Some? ==> b.thickness == u.thickness.value
    ensures u.thickness.None? ==> b.thickness == a.thickness
    ensures u.content.Some? ==> b.content == u.content
    ensures u.content.None? ==> b.content == a.content
    ensures u.fontSize.Some? ==> b.fontSize == u.fontSize
    ensures u.fontSize.None? ==> b.fontSize == a.fontSize
    ensures u.fontFamily.Some? ==> b.fontFamily == u.fontFamily
    ensures u.fontFamily.None? ==> b.fontFamily == a.fontFamily
    ensures u.alignment.Some? ==> b.alignment == u.alignment
    ensures u.alignment.None? ==> b.alignment == a.alignment
  {
    a.(color := u.color.GetOr(a.color), thickness := u.thickness.GetOr(a.thickness),
       content := Override(a.content, u.content), fontSize := Override(a.fontSize, u.fontSize),
       fontFamily := Override(a.fontFamily, u.fontFamily), alignment := Override(a.alignment, u.alignment))
  }

  /** Merging the same properties twice is merging them once. */
  lemma MergeIdempotent(a: Annotation, u: Patch)
    ensures Merge(Merge(a, u), u) == Merge(a, u)
  {
  }

  /** Every entry with the given id merged with `u`, the others as they were. */
  function UpdateWhere(anns: seq<Annotation>, id: string, u: Patch): (r: seq<Annotation>)
    ensures |r| == |anns|
    ensures forall i :: 0 <= i < |anns| ==>
      r[i] == if anns[i].id == id then Merge(anns[i], u) else anns[i]
    decreases |anns|
  {
    if anns == [] then []
    else [if anns[0].id == id then Merge(anns[0], u) else anns[0]] + UpdateWhere(anns[1..], id, u)
  }

  /** `updateSelected`: nothing happens unless some id (a non-empty one) is selected. */
  function UpdateSelected(anns: seq<Annotation>, selected: Option<string>, u: Patch): (r: seq<Annotation>)
    ensures |r| == |anns|
    ensures forall i :: 0 <= i < |anns| ==>
      && r[i].id == anns[i].id && r[i].kind == anns[i].kind && r[i].pageIndex == anns[i].pageIndex
      && r[i].x == anns[i].x && r[i].y == anns[i].y && r[i].width == anns[i].width
      && r[i].height == anns[i].height && r[i].points == anns[i].points
  {
    if !Truthy(selected) then anns else UpdateWhere(anns, selected.value, u)
  }

  /** An update keeps the length, the order and every id, and touches only the
      entries carrying the selected id. */
  lemma UpdateSelectedFrame(anns: seq<Annotation>, selected: Option<string>, u: Patch)
    ensures var r := UpdateSelected(anns, selected, u);
      && |r| == |anns|
      && (!Truthy(selected) ==> r == anns)
      && forall i :: 0 <= i < |anns| ==>
           && r[i].id == anns[i].id
           && (Some(anns[i].id) != selected ==> r[i] == anns[i])
           && (Truthy(selected) && Some(anns[i].id) == selected ==> r[i] == Merge(anns[i], u))
  {
  }

  /** Applying the same update twice is applying it once. */
  lemma UpdateSelectedIdempotent(anns: seq<Annotation>, selected: Option<string>, u: Patch)
    ensures UpdateSelected(UpdateSelected(anns, selected, u), selected, u) == UpdateSelected(anns, selected, u)
  {
    if Truthy(selected) {
      var once := UpdateWhere(anns, selected.value, u);
      var twice := UpdateWhere(once, selected.value, u);
      forall i | 0 <= i < |anns| ensures twice[i] == once[i] {
        MergeIdempotent(anns[i], u);
      }
    }
  }

  /** The delete button: every entry whose id is the selected one is filtered out. */
  function Remove(anns: seq<Annotation>, selected: Option<string>): (r: seq<Annotation>)
    ensures |r| <= |anns|
    decreases |anns|
  {
    if anns == [] then []
    else (if Some(anns[0].id) != selected then [anns[0]] else []) + Remove(anns[1..], selected)
  }

  /** What survives a delete: exactly the entries whose id is not the selected one. */
  lemma {:induction false} RemoveMembers(anns: seq<Annotation>, selected: Option<string>)
    ensures forall a :: a in Remove(anns, selected) <==> a in anns && Some(a.id) != selected
    decreases |anns|
  {
    if anns != [] {
      RemoveMembers(anns[1..], selected);
      assert anns == [anns[0]] + anns[1..];
    }
  }

  /** Removal works piecewise, so the surviving entries keep their order. */
  lemma {:induction false} RemoveAppend(xs: seq<Annotation>, ys: seq<Annotation>, selected: Option<string>)
    ensures Remove(xs + ys, selected) == Remove(xs, selected) + Remove(ys, selected)
    decreases |xs|
  {
    if xs != [] {
      assert (xs + ys)[1..] == xs[1..] + ys;
      RemoveAppend(xs[1..], ys, selected);
    } else {
      assert xs + ys == ys;
    }
  }

  predicate UniqueIds(anns: seq<Annotation>) {
    forall i, j :: 0 <= i < |anns| && 0 <= j < |anns| && anns[i].id == anns[j].id ==> i == j
  }

  /** With unique ids, deleting the selected entry removes exactly that one entry. */
  lemma {:induction false} RemoveSelectedOne(anns: seq<Annotation>, k: nat)
    requires k < |anns| && UniqueIds(anns)
    ensures Remove(anns, Some(anns[k].id)) == anns[..k] + anns[k + 1..]
  {
    OthersHaveOtherIds(anns, k);
    assert anns == anns[..k] + [anns[k]] + anns[k + 1..];
    RemoveOnlyMatch(anns[..k], anns[k], anns[k + 1..]);
  }

  lemma RemoveOnlyMatch(before: seq<Annotation>, x: Annotation, after: seq<Annotation>)
    requires forall a :: a in before ==> a.id != x.id
    requires forall a :: a in after ==> a.id != x.id
    ensures Remove(before + [x] + after, Some(x.id)) == before + after
  {
    var sel := Some(x.id);
    RemoveNone(before, sel);
    RemoveNone(after, sel);
    assert Remove([x], sel) == [];
    RemoveAppend(before + [x], after, sel);
    RemoveAppend(before, [x], sel);
  }

  lemma OthersHaveOtherIds(anns: seq<Annotation>, k: nat)
    requires k < |anns| && UniqueIds(anns)
    ensures forall a :: a in anns[..k] ==> a.id != anns[k].id
    ensures forall a :: a in anns[k + 1..] ==> a.id != anns[k].id
  {
    forall a | a in anns[..k] ensures a.id != anns[k].id {
      var j :| 0 <= j < k && anns[..k][j] == a;
      assert anns[j] == a;
    }
    forall a | a in anns[k + 1..] ensures a.id != anns[k].id {
      var j :| 0 <= j < |anns| - k - 1 && anns[k + 1..][j] == a;
      assert anns[k + 1 + j] == a;
    }
  }

  /** Removing an id no entry carries changes nothing. */
  lemma {:induction false} RemoveNone(anns: seq<Annotation>, selected: Option<string>)
    requires forall a :: a in anns ==> Some(a.id) != selected
    ensures Remove(anns, selected) == anns
    decreases |anns|
  {
    if anns != [] {
      RemoveNone(anns[1..], selected);
    }
  }

  /** `annotations.find(a => a.id === selectedId)`: the selected annotation, if any. */
  function FindSelected(anns: seq<Annotation>, selected: Option<string>): (r: Option<Annotation>)
    ensures r.Some? ==> r.value in anns && Some(r.value.id) == selected
    ensures r.Some? ==>
      exists k :: 0 <= k < |anns| && anns[k] == r.value && forall j :: 0 <= j < k ==> Some(anns[j].id) != selected
    ensures r.None? ==> forall a :: a in anns ==> Some(a.id) != selected
    decreases |anns|
  {
    if anns == [] then None
    else if Some(anns[0].id) == selected then Some(anns[0])
    else
      var r := FindSelected(anns[1..], selected);
      if r.Some? then
        var k :| 0 <= k < |anns| - 1 && anns[1..][k] == r.value &&
          forall j :: 0 <= j < k ==> Some(anns[1..][j].id) != selected;
        assert anns[k + 1] == r.value;
        assert forall j :: 0 <= j < k + 1 ==> Some(anns[j].id) != selected by {
          forall j | 0 <= j < k + 1 ensures Some(anns[j].id) != selected {
            if j > 0 { assert anns[j] == anns[1..][j - 1]; }
          }
        }
        r
      else r
  }

  /** After a delete the selected id is still set but finds no annotation. */
  lemma DeleteLeavesNothingSelected(anns: seq<Annotation>, selected: Option<string>)
    ensures FindSelected(Remove(anns, selected), selected).None?
  {
    RemoveMembers(anns, selected);
  }

  // ---------------------------------------------------------------------------
  // Overlay geometry
  // ---------------------------------------------------------------------------

  /** Stroke (or, for text, fill) colour and line width. */
  datatype Pen = Pen(color: string, width: real)

  /** What the overlay canvas is asked to draw. */
  datatype CanvasCmd =
    | StrokePath(moveTo: Point, lineTo: seq<Point>, pen: Pen)
    | FillText(text: string, x: real, y: real, align: TextAlignment, pen: Pen)
    | StrokeRect(x: real, y: real, w: real, h: real, pen: Pen)
    | StrokeEllipse(cx: real, cy: real, rx: real, ry: real, pen: Pen)

  function Ellipse(x: real, y: real, w: real, h: real, pen: Pen): CanvasCmd {
    StrokeEllipse(x + w / 2.0, y + h / 2.0, Abs(w / 2.0), Abs(h / 2.0), pen)
  }

  /** How one committed annotation is drawn. Highlight has no branch. A freehand
      stroke without points or a line with fewer than two would make the canvas read
      a missing point; they draw nothing here and a session never creates them. */
  function Shape(a: Annotation): (r: seq<CanvasCmd>)
    ensures |r| <= 1
    ensures a.kind == Highlight || a.kind == Pointer ==> r == []
    ensures forall c :: c in r ==> c.pen == Pen(a.color, a.thickness)
  {
    var pen := Pen(a.color, a.thickness);
    if a.kind == Draw && a.points.Some? then
      if |a.points.value| >= 1 then [StrokePath(a.points.value[0], a.points.value, pen)] else []
    else if a.kind == Text && Truthy(a.content) then
      [FillText(a.content.value, a.x, a.y, a.alignment.GetOr(Left), pen)]
    else if a.kind == Square then
      [StrokeRect(a.x, a.y, OrNum(a.width, 0.0), OrNum(a.height, 0.0), pen)]
    else if a.kind == Circle then
      [Ellipse(a.x, a.y, OrNum(a.width, 0.0), OrNum(a.height, 0.0), pen)]
    else if a.kind == Line && a.points.Some? then
      if |a.points.value| >= 2 then [StrokePath(a.points.value[0], [a.points.value[1]], pen)] else []
    else []
  }

  function ShapeOnPage(page: int, a: Annotation): seq<CanvasCmd> {
    if a.pageIndex == page then Shape(a) else []
  }

  /** The committed annotations of the current page, in array order: at most one
      drawing per annotation, and nothing when no annotation is on the page. */
  function Scene(anns: seq<Annotation>, page: int): (r: seq<CanvasCmd>)
    ensures |r| <= |anns|
    ensures (forall a :: a in anns ==> a.pageIndex != page) ==> r == []
  {
    FlatMapAtMostOne(a => ShapeOnPage(page, a), anns);
    FlatMapAll(a => ShapeOnPage(page, a), anns, (c: CanvasCmd) => exists a :: a in anns && a.pageIndex == page);
    var r := FlatMap(a => ShapeOnPage(page, a), anns);
    assert r != [] ==> r[0] in r;
    r
  }

  /** Annotations are drawn in array order: annotation `i`'s commands come after those
      of every earlier one and before those of every later one. */
  lemma SceneInOrder(anns: seq<Annotation>, page: int, i: nat)
    requires i < |anns|
    ensures Scene(anns, page) == Scene(anns[..i], page) + ShapeOnPage(page, anns[i]) + Scene(anns[i + 1..], page)
  {
    FlatMapSplit(a => ShapeOnPage(page, a), anns, i);
  }

  /** Annotations of other pages are never drawn, wherever they stand in the list. */
  lemma SceneSkipsOtherPages(xs: seq<Annotation>, a: Annotation, ys: seq<Annotation>, page: int)
    requires a.pageIndex != page
    ensures Scene(xs + [a] + ys, page) == Scene(xs + ys, page)
  {
    FlatMapSkip(b => ShapeOnPage(page, b), xs, a, ys);
  }

  /** The ellipse is inscribed in the dragged box whatever the drag direction: its
      radii are the absolute half-extents and it spans from the smaller to the larger
      coordinate on each axis. */
  lemma EllipseInscribed(x: real, y: real, w: real, h: real, pen: Pen)
    ensures var e := Ellipse(x, y, w, h, pen);
      && e.rx >= 0.0 && e.ry >= 0.0
      && e.cx - e.rx == (if w < 0.0 then x + w else x) && e.cx + e.rx == (if w < 0.0 then x else x + w)
      && e.cy - e.ry == (if h < 0.0 then y + h else y) && e.cy + e.ry == (if h < 0.0 then y else y + h)
  {
  }

  /** The live preview of a gesture, drawn from the start and the last sampled point. */
  function Preview(tool: EditorTool, isDrawing: bool, start: Option<Point>, path: seq<Point>,
                   color: string, thickness: real): (r: seq<CanvasCmd>)
    ensures |r| <= 1
    ensures !isDrawing || tool == Pointer || tool == Text || tool == Highlight ==> r == []
    ensures forall c :: c in r ==> c.pen == Pen(color, thickness)
  {
    if !isDrawing || start.None? || path == [] then []
    else
      var s := start.value;
      var last := path[|path| - 1];
      var pen := Pen(color, thickness);
      if tool == Square then [StrokeRect(s.x, s.y, last.x - s.x, last.y - s.y, pen)]
      else if tool == Circle then [Ellipse(s.x, s.y, last.x - s.x, last.y - s.y, pen)]
      else if tool == Line then [StrokePath(s, [last], pen)]
      else if tool == Draw then [StrokePath(path[0], path, pen)]
      else []
  }

  /** The preview of a drag shows exactly what the overlay draws for the annotation
      that releasing the mouse then creates; the other tools preview nothing. */
  lemma PreviewMatchesCommitted(tool: EditorTool, start: Point, path: seq<Point>, id: string, page: int,
                                color: string, thickness: real)
    requires |path| > 0
    ensures IsShapeTool(tool) ==>
      Preview(tool, true, Some(start), path, color, thickness) ==
      Shape(ShapeAnnotation(id, tool, start, path, page, color, thickness))
    ensures !IsShapeTool(tool) ==> Preview(tool, true, Some(start), path, color, thickness) == []
  {
    var a := ShapeAnnotation(id, tool, start, path, page, color, thickness);
    assert OrNum(a.width, 0.0) == a.width.value;
    assert OrNum(a.height, 0.0) == a.height.value;
  }

  // ---------------------------------------------------------------------------
  // Overlay and export agree
  // ---------------------------------------------------------------------------

  /** On a page of height `pageHeight`, the exported primitive of a rectangle, ellipse,
      line or freehand stroke is the overlay's drawing turned upside down: the ellipse
      centre is the flipped overlay centre with the same absolute radii, a rectangle
      with a non-zero extent covers the flipped overlay rectangle, and every segment
      end is a flipped overlay vertex. */
  lemma ExportFlipsOverlay(pages: seq<real>, a: Annotation)
    requires PdfService.HasPage(pages, a) && Drawable(a)
    ensures var H := pages[a.pageIndex];
      var ex := PdfService.AnnotationCmds(pages, a);
      var ov := Shape(a);
      && (a.kind == Circle ==>
            && |ex| == 1 && |ov| == 1 && ex[0].prim.DrawEllipse? && ov[0].StrokeEllipse?
            && Point(ex[0].prim.x, ex[0].prim.y) == PdfService.Flip(H, Point(ov[0].cx, ov[0].cy))
            && Abs(ex[0].prim.xScale) == ov[0].rx && Abs(ex[0].prim.yScale) == ov[0].ry)
      && (a.kind == Square && OrNum(a.width, 0.0) != 0.0 && OrNum(a.height, 0.0) != 0.0 ==>
            && |ex| == 1 && |ov| == 1 && ex[0].prim.DrawRectangle? && ov[0].StrokeRect?
            && ex[0].prim.x == ov[0].x && ex[0].prim.width == ov[0].w && ex[0].prim.height == ov[0].h
            && ex[0].prim.y + ex[0].prim.height == H - ov[0].y)
      && (a.kind == Line && a.points.Some? ==>
            && |ex| == 1 && |ov| == 1 && ex[0].prim.DrawLine? && ov[0].StrokePath? && |ov[0].lineTo| == 1
            && ex[0].prim.start == PdfService.Flip(H, ov[0].moveTo)
            && ex[0].prim.end == PdfService.Flip(H, ov[0].lineTo[0]))
      && (a.kind == Draw && a.points.Some? && |a.points.value| > 1 ==>
            && |ov| == 1 && ov[0].StrokePath? && |ex| == |ov[0].lineTo| - 1
            && forall i :: 0 <= i < |ex| ==>
                 && ex[i].prim.DrawLine?
                 && ex[i].prim.start == PdfService.Flip(H, ov[0].lineTo[i])
                 && ex[i].prim.end == PdfService.Flip(H, ov[0].lineTo[i + 1]))
  {
    if a.kind == Draw && a.points.Some? && |a.points.value| > 1 {
      PdfService.FreehandExport(pages, a);
    }
  }

  /** A highlight is never drawn on the overlay, yet it exports one filled rectangle. */
  lemma HighlightOnlyExported(pages: seq<real>, a: Annotation)
    requires PdfService.HasPage(pages, a) && a.kind == Highlight
    ensures Shape(a) == []
    ensures var ex := PdfService.AnnotationCmds(pages, a);
      |ex| == 1 && ex[0].prim.DrawRectangle? && ex[0].prim.color == Some(PdfService.HexToRgb(a.color))
  {
  }

  /** A square is outlined on the overlay from its anchor with extents `|| 0`; a missing
      or zero extent is drawn flat there but 50 long in the export. */
  lemma SquareOverlay(pages: seq<real>, a: Annotation)
    requires PdfService.HasPage(pages, a) && a.kind == Square
    ensures var ov := Shape(a);
      && |ov| == 1 && ov[0].StrokeRect? && ov[0].x == a.x && ov[0].y == a.y
      && ov[0].w == OrNum(a.width, 0.0) && ov[0].h == OrNum(a.height, 0.0)
    ensures var ov := Shape(a);
      var ex := PdfService.AnnotationCmds(pages, a);
      && |ex| == 1 && ex[0].prim.DrawRectangle?
      && (ov[0].w == 0.0 ==> ex[0].prim.width == 50.0)
      && (ov[0].h == 0.0 ==> ex[0].prim.height == 50.0 && ex[0].prim.y == pages[a.pageIndex] - a.y)
  {
  }

  /** Text with content is filled at the anchor with its alignment (left when unset);
      the export moves it by the fixed alignment nudge and puts the anchor at the top
      of the glyph box. Text without content is drawn nowhere. */
  lemma TextOverlay(pages: seq<real>, a: Annotation)
    requires PdfService.HasPage(pages, a) && a.kind == Text
    ensures !Truthy(a.content) ==> Shape(a) == [] && PdfService.AnnotationCmds(pages, a) == []
    ensures Truthy(a.content) ==>
      var ov := Shape(a);
      var ex := PdfService.AnnotationCmds(pages, a);
      && |ov| == 1 && ov[0].FillText? && ov[0].text == a.content.value
      && ov[0].x == a.x && ov[0].y == a.y && ov[0].align == a.alignment.GetOr(Left)
      && |ex| == 1 && ex[0].prim.DrawText? && ex[0].prim.text == ov[0].text
      && ex[0].prim.x == ov[0].x + PdfService.AlignOffset(a.alignment)
      && ex[0].prim.y + OrNum(a.fontSize, 12.0) == pages[a.pageIndex] - ov[0].y
  {
  }

  /** A line with two or more points is one segment from its first point to its second;
      one with fewer points, or none, is drawn nowhere. */
  lemma LineOverlay(a: Annotation)
    requires a.kind == Line
    ensures a.points.Some? && |a.points.value| >= 2 ==>
      Shape(a) == [StrokePath(a.points.value[0], [a.points.value[1]], Pen(a.color, a.thickness))]
    ensures a.points.None? || |a.points.value| < 2 ==> Shape(a) == []
  {
  }

  /** A freehand stroke is one path from its first point through all of them; a stroke
      of a single point is drawn on the overlay but exports nothing, and one without
      points is drawn nowhere. */
  lemma FreehandOverlay(pages: seq<real>, a: Annotation)
    requires PdfService.HasPage(pages, a) && a.kind == Draw
    ensures a.points.None? ==> Shape(a) == [] && PdfService.AnnotationCmds(pages, a) == []
    ensures a.points.Some? && |a.points.value| >= 1 ==>
      Shape(a) == [StrokePath(a.points.value[0], a.points.value, Pen(a.color, a.thickness))]
    ensures a.points.Some? && |a.points.value| == 1 ==> PdfService.AnnotationCmds(pages, a) == []
  {
  }

  // ---------------------------------------------------------------------------
  // The session
  // ---------------------------------------------------------------------------

  /** The editor's state for one open document. */
  class Session {
    var activeTool: EditorTool
    var annotations: seq<Annotation>
    var selectedId: Option<string>
    var currentPage: int
    var currentColor: string
    var currentThickness: real
    var currentFontSize: real
    var currentFontFamily: string
    var currentAlignment: TextAlignment
    var isDrawing: bool
    var startPos: Option<Point>
    var currentPath: seq<Point>

    /** A gesture in progress has a start and at least one sampled point, and every
        annotation can be drawn. */
    predicate Valid()
      reads this
    {
      && (isDrawing ==> startPos.Some? && |currentPath| > 0)
      && forall i :: 0 <= i < |annotations| ==> Drawable(annotations[i])
    }

    /** The initial state of a session. */
    constructor ()
      ensures Valid()
      ensures activeTool == Pointer && annotations == [] && selectedId == None && currentPage == 0
      ensures currentColor == "#2563eb" && currentThickness == 2.0 && currentFontSize == 16.0
      ensures currentFontFamily == "Inter" && currentAlignment == Left
      ensures !isDrawing && startPos == None && currentPath == []
    {
      activeTool := Pointer;
      annotations := [];
      selectedId := None;
      currentPage := 0;
      currentColor := "#2563eb";
      currentThickness := 2.0;
      currentFontSize := 16.0;
      currentFontFamily := "Inter";
      currentAlignment := Left;
      isDrawing := false;
      startPos := None;
      currentPath := [];
    }

    /** `handleMouseDown`. `reply` is what the text prompt returned (None when it was
        cancelled) and `newId` the id a new annotation gets. */
    method MouseDown(client: Point, overlay: Option<OverlayBox>, reply: Option<string>, newId: string)
      requires Valid() && Measurable(overlay)
      modifies this
      ensures Valid()
      ensures activeTool == old(activeTool) && currentPage == old(currentPage)
      ensures currentColor == old(currentColor) && currentThickness == old(currentThickness)
      ensures currentFontSize == old(currentFontSize) && currentFontFamily == old(currentFontFamily)
      ensures currentAlignment == old(currentAlignment)
      ensures var pos := MousePos(client, overlay);
        if activeTool == Pointer then
          && selectedId == HitId(old(annotations), currentPage, pos)
          && annotations == old(annotations)
          && isDrawing == old(isDrawing) && startPos == old(startPos) && currentPath == old(currentPath)
        else
          && startPos == Some(pos) && currentPath == [pos]
          && isDrawing == (activeTool != Text)
          && if activeTool == Text && Truthy(reply) then
               && annotations == old(annotations) + [TextAnnotation(newId, pos, reply.value, currentPage,
                    currentColor, currentThickness, currentFontSize, currentFontFamily, currentAlignment)]
               && selectedId == Some(newId)
             else
               annotations == old(annotations) && selectedId == old(selectedId)
    {
      var pos := MousePos(client, overlay);
      if activeTool == Pointer {
        selectedId := HitId(annotations, currentPage, pos);
        return;
      }
      isDrawing := true;
      startPos := Some(pos);
      currentPath := [pos];
      if activeTool == Text {
        if Truthy(reply) {
          var newAnn := TextAnnotation(newId, pos, reply.value, currentPage, currentColor, currentThickness,
                                       currentFontSize, currentFontFamily, currentAlignment);
          annotations := annotations + [newAnn];
          selectedId := Some(newId);
        }
        isDrawing := false;
      }
    }

    /** `handleMouseMove`: while drawing, the mapped point joins the path. */
    method MouseMove(client: Point, overlay: Option<OverlayBox>)
      requires Valid() && Measurable(overlay)
      modifies this`currentPath
      ensures Valid()
      ensures currentPath == if isDrawing then old(currentPath) + [MousePos(client, overlay)] else old(currentPath)
    {
      if !isDrawing {
        return;
      }
      currentPath := currentPath + [MousePos(client, overlay)];
    }

    /** `handleMouseUp`: a drag with a shape tool becomes a selected annotation; every
        drag ends here. */
    method MouseUp(newId: string)
      requires Valid()
      modifies this`annotations, this`selectedId, this`isDrawing, this`currentPath
      ensures Valid()
      ensures !old(isDrawing) ==>
        annotations == old(annotations) && selectedId == old(selectedId) && currentPath == old(currentPath) && !isDrawing
      ensures old(isDrawing) ==> !isDrawing && currentPath == []
      ensures old(isDrawing) && IsShapeTool(activeTool) ==>
        && annotations == old(annotations) + [ShapeAnnotation(newId, activeTool, startPos.value, old(currentPath),
                                                              currentPage, currentColor, currentThickness)]
        && selectedId == Some(newId)
      ensures old(isDrawing) && !IsShapeTool(activeTool) ==>
        annotations == old(annotations) && selectedId == old(selectedId)
    {
      if !isDrawing || startPos.None? {
        return;
      }
      if IsShapeTool(activeTool) {
        var newAnn := ShapeAnnotation(newId, activeTool, startPos.value, currentPath, currentPage,
                                      currentColor, currentThickness);
        annotations := annotations + [newAnn];
        selectedId := Some(newId);
      }
      isDrawing := false;
      currentPath := [];
    }

    /** `updateSelected`: the selected entry takes the given properties. */
    method UpdateSelectedProps(u: Patch)
      requires Valid()
      modifies this`annotations
      ensures Valid()
      ensures annotations == UpdateSelected(old(annotations), selectedId, u)
    {
      annotations := UpdateSelected(annotations, selectedId, u);
    }

    /** The delete button: the selected entry leaves the list; the selection stays. */
    method DeleteSelected()
      requires Valid()
      modifies this`annotations
      ensures Valid()
      ensures annotations == Remove(old(annotations), selectedId)
    {
      RemoveMembers(annotations, selectedId);
      annotations := Remove(annotations, selectedId);
    }

    /** `drawAnnotations`: the current page's annotations, then the gesture preview,
        which is at most one command and nothing while no gesture is in progress. */
    function DrawAnnotations(): (r: seq<CanvasCmd>)
      reads this
      ensures var s := Scene(annotations, currentPage); |s| <= |r| <= |s| + 1 && r[..|s|] == s
      ensures !isDrawing ==> r == Scene(annotations, currentPage)
      ensures r[|Scene(annotations, currentPage)|..] ==
              Preview(activeTool, isDrawing, startPos, currentPath, currentColor, currentThickness)
    {
      Scene(annotations, currentPage) +
      Preview(activeTool, isDrawing, startPos, currentPath, currentColor, currentThickness)
    }
  }

  /** During a drag with a shape tool, the overlay already shows what releasing the
      mouse commits: the drawing equals the scene with the new shape appended. */
  lemma DragShowsCommitted(s: Session, newId: string)
    requires s.Valid() && s.isDrawing && IsShapeTool(s.activeTool)
    ensures s.DrawAnnotations() ==
      Scene(s.annotations + [ShapeAnnotation(newId, s.activeTool, s.startPos.value, s.currentPath, s.currentPage,
                                             s.currentColor, s.currentThickness)], s.currentPage)
  {
    var a := ShapeAnnotation(newId, s.activeTool, s.startPos.value, s.currentPath, s.currentPage,
                             s.currentColor, s.currentThickness);
    PreviewMatchesCommitted(s.activeTool, s.startPos.value, s.currentPath, newId, s.currentPage,
                            s.currentColor, s.currentThickness);
    var page := s.currentPage;
    FlatMapAppend(b => ShapeOnPage(page, b), s.annotations, [a]);
    FlatMapSingle(b => ShapeOnPage(page, b), a);
  }
}
