/** The export transform: every annotation becomes drawing commands on its page of the
    document, in the PDF default user space, whose origin is the bottom-left corner of
    the page (section 8.3.2.3 of ISO 32000-1), while the overlay's origin is top-left.
    The document is its sequence of page heights; the PDF library's drawing calls are
    recorded as `DrawCmd`s. */
module PdfService {
  import opened Types

  /** A colour with channels in [0, 1]. */
  datatype Rgb = Rgb(r: real, g: real, b: real)

  const Black := Rgb(0.0, 0.0, 0.0)

  predicate InUnitRange(c: Rgb) {
    0.0 <= c.r <= 1.0 && 0.0 <= c.g <= 1.0 && 0.0 <= c.b <= 1.0
  }

  // ---------------------------------------------------------------------------
  // hexToRgb: the six-digit form of the CSS hex colour notation
  // (section 5.2 of CSS Color Module Level 4), with the `#` optional
  // ---------------------------------------------------------------------------

  predicate IsHexDigit(c: char) {
    '0' <= c <= '9' || 'a' <= c <= 'f' || 'A' <= c <= 'F'
  }

  function HexValue(c: char): (v: nat)
    requires IsHexDigit(c)
    ensures v < 16
  {
    if '0' <= c <= '9' then c as int - '0' as int
    else if 'a' <= c <= 'f' then c as int - 'a' as int + 10
    else c as int - 'A' as int + 10
  }

  predicate AllHex(s: string) {
    forall i :: 0 <= i < |s| ==> IsHexDigit(s[i])
  }

  /** The strings the pattern `^#?([a-f\d]{2})([a-f\d]{2})([a-f\d]{2})$`, case-insensitive, accepts. */
  predicate IsHexColor(s: string) {
    (|s| == 6 && AllHex(s)) || (|s| == 7 && s[0] == '#' && AllHex(s[1..]))
  }

  /** One channel: the byte written by two hex digits, divided by 255. */
  function Channel(hi: char, lo: char): (v: real)
    requires IsHexDigit(hi) && IsHexDigit(lo)
    ensures 0.0 <= v <= 1.0
  {
    (16 * HexValue(hi) + HexValue(lo)) as real / 255.0
  }

  function HexToRgb(hex: string): (c: Rgb)
    ensures InUnitRange(c)
    ensures !IsHexColor(hex) ==> c == Black
  {
    var d := if |hex| == 7 && hex[0] == '#' then hex[1..] else hex;
    if |d| == 6 && AllHex(d) then
      Rgb(Channel(d[0], d[1]), Channel(d[2], d[3]), Channel(d[4], d[5]))
    else
      Black
  }

  /** The hex digit for `v` in lower or upper case. */
  function DigitChar(v: nat, upper: bool): (c: char)
    requires v < 16
    ensures IsHexDigit(c)
  {
    if v < 10 then ('0' as int + v) as char
    else if upper then ('A' as int + v - 10) as char
    else ('a' as int + v - 10) as char
  }

  lemma DigitValue(v: nat, upper: bool)
    requires v < 16
    ensures HexValue(DigitChar(v, upper)) == v
  {
  }

  /** A colour written as six hex digits, with or without `#`, digit `i` in upper case
      when `up[i]` holds (so any mix of cases). */
  function FormatHex(r: nat, g: nat, b: nat, hash: bool, up: seq<bool>): (s: string)
    requires r < 256 && g < 256 && b < 256 && |up| == 6
    ensures IsHexColor(s)
  {
    (if hash then "#" else "") +
    [DigitChar(r / 16, up[0]), DigitChar(r % 16, up[1]),
     DigitChar(g / 16, up[2]), DigitChar(g % 16, up[3]),
     DigitChar(b / 16, up[4]), DigitChar(b % 16, up[5])]
  }

  /** Reading back a formatted colour gives each byte divided by 255, whatever the
      case of each digit and whether or not `#` is there. */
  lemma HexRoundTrip(r: nat, g: nat, b: nat, hash: bool, up: seq<bool>)
    requires r < 256 && g < 256 && b < 256 && |up| == 6
    ensures HexToRgb(FormatHex(r, g, b, hash, up)) == Rgb(r as real / 255.0, g as real / 255.0, b as real / 255.0)
  {
    var s := FormatHex(r, g, b, hash, up);
    var d := if |s| == 7 && s[0] == '#' then s[1..] else s;
    assert d == [DigitChar(r / 16, up[0]), DigitChar(r % 16, up[1]),
                 DigitChar(g / 16, up[2]), DigitChar(g % 16, up[3]),
                 DigitChar(b / 16, up[4]), DigitChar(b % 16, up[5])];
    DigitValue(r / 16, up[0]); DigitValue(r % 16, up[1]);
    DigitValue(g / 16, up[2]); DigitValue(g % 16, up[3]);
    DigitValue(b / 16, up[4]); DigitValue(b % 16, up[5]);
  }

  /** Any string of a length other than six or seven, such as the three-digit
      shorthand `#abc`, is read as black. */
  lemma ShorthandIsBlack(hex: string)
    requires |hex| != 6 && |hex| != 7
    ensures HexToRgb(hex) == Black
  {
  }

  // ---------------------------------------------------------------------------
  // Drawing primitives of the PDF library
  // ---------------------------------------------------------------------------

  datatype StandardFont = Helvetica | Courier

  /* The options a drawing call passes; a filled shape has `color`, an outlined one
     `borderColor` and `borderWidth`, and an option that is not passed is None. */
  datatype Primitive =
    | DrawText(text: string, x: real, y: real, size: real, font: StandardFont, color: Option<Rgb>)
    | DrawRectangle(x: real, y: real, width: real, height: real, color: Option<Rgb>,
                    borderColor: Option<Rgb>, borderWidth: Option<real>, opacity: Option<real>)
    | DrawEllipse(x: real, y: real, xScale: real, yScale: real, borderColor: Option<Rgb>, borderWidth: Option<real>)
    | DrawLine(start: Point, end: Point, thickness: real, color: Option<Rgb>, opacity: Option<real>)

  /** A primitive drawn on the page with index `page`. */
  datatype DrawCmd = DrawCmd(page: nat, prim: Primitive)

  /** The fixed nudge for text alignment. */
  function AlignOffset(a: Option<TextAlignment>): real {
    if a == Some(Center) then -50.0 else if a == Some(Right) then -100.0 else 0.0
  }

  function FontFor(family: Option<string>): StandardFont {
    if family == Some("Courier") then Courier else Helvetica
  }

  /** A point in overlay space, in page space: the y axis turned upside down. */
  function Flip(height: real, p: Point): Point {
    Point(p.x, height - p.y)
  }

  lemma FlipInvolution(height: real, p: Point)
    ensures Flip(height, Flip(height, p)) == p
  {
  }

  /** One segment of a freehand stroke. */
  function Segment(height: real, p: Point, q: Point, thickness: real, color: Rgb): Primitive {
    DrawLine(Flip(height, p), Flip(height, q), thickness, Some(color), Some(1.0))
  }

  /** The segments joining consecutive points of a freehand stroke. */
  function FreehandSegments(page: nat, height: real, pts: seq<Point>, thickness: real, color: Rgb): (r: seq<DrawCmd>)
    ensures |r| == if |pts| < 2 then 0 else |pts| - 1
    ensures forall i {:trigger r[i]} :: 0 <= i < |r| ==> r[i] == DrawCmd(page, Segment(height, pts[i], pts[i + 1], thickness, color))
    ensures forall c :: c in r ==> c.page == page
    decreases |pts|
  {
    if |pts| < 2 then []
    else [DrawCmd(page, Segment(height, pts[0], pts[1], thickness, color))]
         + FreehandSegments(page, height, pts[1..], thickness, color)
  }

  /** The commands for one annotation on a page of the given height. */
  function PageCmds(page: nat, height: real, a: Annotation): (r: seq<DrawCmd>)
    ensures forall c :: c in r ==> c.page == page
    ensures a.kind != Draw ==> |r| <= 1
    ensures a.kind == Pointer ==> r == []
  {
    var color := HexToRgb(a.color);
    if a.kind == Text && Truthy(a.content) then
      [DrawCmd(page, DrawText(a.content.value, a.x + AlignOffset(a.alignment),
                              height - a.y - OrNum(a.fontSize, 12.0), OrNum(a.fontSize, 14.0),
                              FontFor(a.fontFamily), Some(color)))]
    else if a.kind == Highlight then
      [DrawCmd(page, DrawRectangle(a.x, height - a.y - 15.0, OrNum(a.width, 100.0), OrNum(a.height, 15.0),
                                   Some(color), None, None, Some(0.4)))]
    else if a.kind == Square then
      [DrawCmd(page, DrawRectangle(a.x, height - a.y - OrNum(a.height, 0.0), OrNum(a.width, 50.0),
                                   OrNum(a.height, 50.0), None, Some(color), Some(a.thickness), None))]
    else if a.kind == Circle then
      [DrawCmd(page, DrawEllipse(a.x + OrNum(a.width, 0.0) / 2.0, height - a.y - OrNum(a.height, 0.0) / 2.0,
                                 OrNum(a.width, 0.0) / 2.0, OrNum(a.height, 0.0) / 2.0, Some(color), Some(a.thickness)))]
    else if a.kind == Line then
      if a.points.Some? && |a.points.value| >= 2 then
        [DrawCmd(page, DrawLine(Flip(height, a.points.value[0]), Flip(height, a.points.value[1]),
                                a.thickness, Some(color), None))]
      else []
    else if a.kind == Draw && a.points.Some? && |a.points.value| > 1 then
      FreehandSegments(page, height, a.points.value, a.thickness, color)
    else []
  }

  predicate HasPage(pages: seq<real>, a: Annotation) {
    0 <= a.pageIndex < |pages|
  }

  /** The commands for one annotation: none when its page does not exist. */
  function AnnotationCmds(pages: seq<real>, a: Annotation): (r: seq<DrawCmd>)
    ensures forall c :: c in r ==> HasPage(pages, a) && c.page == a.pageIndex
  {
    if HasPage(pages, a) then PageCmds(a.pageIndex, pages[a.pageIndex], a) else []
  }

  /** The whole export, annotation after annotation. */
  function ExportCmds(pages: seq<real>, anns: seq<Annotation>): (r: seq<DrawCmd>)
    ensures forall c :: c in r ==> c.page < |pages|
  {
    FlatMapAll(a => AnnotationCmds(pages, a), anns, (c: DrawCmd) => c.page < |pages|);
    FlatMap(a => AnnotationCmds(pages, a), anns)
  }

  /** `savePdfWithAnnotations`, from the loaded document to the saved one: the loop
      over the annotations that issues the drawing calls. */
  method SavePdfWithAnnotations(pages: seq<real>, annotations: seq<Annotation>) returns (cmds: seq<DrawCmd>)
    ensures cmds == ExportCmds(pages, annotations)
  {
    cmds := [];
    for i := 0 to |annotations|
      invariant cmds == ExportCmds(pages, annotations[..i])
    {
      var a := annotations[i];
      assert annotations[..i + 1][..i] == annotations[..i];
      if !(0 <= a.pageIndex < |pages|) {
        continue;
      }
      var page := a.pageIndex;
      var drawn := DrawAnnotation(page, pages[page], a);
      cmds := cmds + drawn;
    }
    assert annotations[..|annotations|] == annotations;
  }

  /** The body of the export loop for one annotation on an existing page. */
  method DrawAnnotation(page: nat, height: real, a: Annotation) returns (cmds: seq<DrawCmd>)
    ensures cmds == PageCmds(page, height, a)
  {
    cmds := [];
    var color := HexToRgb(a.color);
    if a.kind == Text && Truthy(a.content) {
      var font := if a.fontFamily == Some("Courier") then Courier else Helvetica;
      var xOffset := 0.0;
      if a.alignment == Some(Center) {
        xOffset := -50.0;
      } else if a.alignment == Some(Right) {
        xOffset := -100.0;
      }
      cmds := [DrawCmd(page, DrawText(a.content.value, a.x + xOffset,
                                      height - a.y - OrNum(a.fontSize, 12.0),
                                      OrNum(a.fontSize, 14.0), font, Some(color)))];
    } else if a.kind == Highlight {
      cmds := [DrawCmd(page, DrawRectangle(a.x, height - a.y - 15.0, OrNum(a.width, 100.0),
                                           OrNum(a.height, 15.0), Some(color), None, None, Some(0.4)))];
    } else if a.kind == Square {
      cmds := [DrawCmd(page, DrawRectangle(a.x, height - a.y - OrNum(a.height, 0.0),
                                           OrNum(a.width, 50.0), OrNum(a.height, 50.0),
                                           None, Some(color), Some(a.thickness), None))];
    } else if a.kind == Circle {
      cmds := [DrawCmd(page, DrawEllipse(a.x + OrNum(a.width, 0.0) / 2.0,
                                         height - a.y - OrNum(a.height, 0.0) / 2.0,
                                         OrNum(a.width, 0.0) / 2.0, OrNum(a.height, 0.0) / 2.0,
                                         Some(color), Some(a.thickness)))];
    } else if a.kind == Line {
      if a.points.Some? && |a.points.value| >= 2 {
        var pts := a.points.value;
        cmds := [DrawCmd(page, DrawLine(Point(pts[0].x, height - pts[0].y),
                                        Point(pts[1].x, height - pts[1].y),
                                        a.thickness, Some(color), None))];
      }
    } else if a.kind == Draw && a.points.Some? && |a.points.value| > 1 {
      cmds := DrawFreehand(page, height, a.points.value, a.thickness, color);
    }
  }

  /** The inner loop of a freehand stroke: one line per pair of consecutive points. */
  method DrawFreehand(page: nat, height: real, pts: seq<Point>, thickness: real, color: Rgb)
    returns (cmds: seq<DrawCmd>)
    requires |pts| > 1
    ensures cmds == FreehandSegments(page, height, pts, thickness, color)
  {
    cmds := [];
    for j := 0 to |pts| - 1
      invariant |cmds| == j
      invariant forall k :: 0 <= k < j ==>
        cmds[k] == DrawCmd(page, Segment(height, pts[k], pts[k + 1], thickness, color))
    {
      var start := pts[j];
      var end := pts[j + 1];
      cmds := cmds + [DrawCmd(page, DrawLine(Point(start.x, height - start.y), Point(end.x, height - end.y),
                                             thickness, Some(color), Some(1.0)))];
    }
  }

  // ---------------------------------------------------------------------------
  // Properties of the export
  // ---------------------------------------------------------------------------

  /** Exporting two lists one after the other is exporting their concatenation. */
  lemma ExportAppend(pages: seq<real>, xs: seq<Annotation>, ys: seq<Annotation>)
    ensures ExportCmds(pages, xs + ys) == ExportCmds(pages, xs) + ExportCmds(pages, ys)
  {
    FlatMapAppend(a => AnnotationCmds(pages, a), xs, ys);
  }

  /** Annotations are exported in list order: the commands of annotation `i` come
      after those of every earlier annotation and before those of every later one. */
  lemma ExportInOrder(pages: seq<real>, anns: seq<Annotation>, i: nat)
    requires i < |anns|
    ensures ExportCmds(pages, anns) ==
      ExportCmds(pages, anns[..i]) + AnnotationCmds(pages, anns[i]) + ExportCmds(pages, anns[i + 1..])
  {
    FlatMapSplit(a => AnnotationCmds(pages, a), anns, i);
  }

  /** An annotation whose page does not exist changes nothing, wherever it stands. */
  lemma ExportSkipsMissingPage(pages: seq<real>, xs: seq<Annotation>, a: Annotation, ys: seq<Annotation>)
    requires !HasPage(pages, a)
    ensures ExportCmds(pages, xs + [a] + ys) == ExportCmds(pages, xs + ys)
  {
    FlatMapSkip(b => AnnotationCmds(pages, b), xs, a, ys);
  }

  /** Text: drawn only when there is content; the glyph box's top (baseline plus the
      font size, 12 when unset or zero) is the flipped anchor; the size defaults to 14;
      the x nudge is 0, -50 or -100; Courier only for the family `Courier`. */
  lemma TextExport(pages: seq<real>, a: Annotation)
    requires HasPage(pages, a) && a.kind == Text
    ensures !Truthy(a.content) ==> AnnotationCmds(pages, a) == []
    ensures Truthy(a.content) ==>
      var cs := AnnotationCmds(pages, a);
      && |cs| == 1 && cs[0].page == a.pageIndex && cs[0].prim.DrawText?
      && var t := cs[0].prim;
      && t.text == a.content.value
      && t.y + OrNum(a.fontSize, 12.0) == pages[a.pageIndex] - a.y
      && t.size == OrNum(a.fontSize, 14.0)
      && (t.x - a.x == 0.0 <==> a.alignment != Some(Center) && a.alignment != Some(Right))
      && (t.x - a.x == -50.0 <==> a.alignment == Some(Center))
      && (t.x - a.x == -100.0 <==> a.alignment == Some(Right))
      && (t.font == Courier <==> a.fontFamily == Some("Courier"))
      && t.color == Some(HexToRgb(a.color))
  {
  }

  /** Highlight: a filled rectangle at 40% opacity, `width || 100` by `height || 15`,
      whose `y` edge is always 15 below the flipped anchor whatever the height. */
  lemma HighlightExport(pages: seq<real>, a: Annotation)
    requires HasPage(pages, a) && a.kind == Highlight
    ensures
      var cs := AnnotationCmds(pages, a);
      && |cs| == 1 && cs[0].page == a.pageIndex
      && var r := cs[0].prim;
      && r == DrawRectangle(r.x, r.y, r.width, r.height, Some(HexToRgb(a.color)), None, None, Some(0.4))
      && r.x == a.x && r.y + 15.0 == pages[a.pageIndex] - a.y
      && r.width == OrNum(a.width, 100.0) && r.height == OrNum(a.height, 15.0)
  {
  }

  /** Square: an outlined rectangle `width || 50` by `height || 50` whose `y` is the
      flipped anchor less `height || 0`, so that its edge at `y + height` is the flipped
      anchor (the top for a downward drag, the bottom for an upward one); a zero or
      missing height instead puts the `y` edge at the flipped anchor, 50 tall. */
  lemma SquareExport(pages: seq<real>, a: Annotation)
    requires HasPage(pages, a) && a.kind == Square
    ensures
      var cs := AnnotationCmds(pages, a);
      && |cs| == 1 && cs[0].page == a.pageIndex
      && var r := cs[0].prim;
      && r == DrawRectangle(r.x, r.y, r.width, r.height, None, Some(HexToRgb(a.color)), Some(a.thickness), None)
      && r.x == a.x && r.width == OrNum(a.width, 50.0) && r.height == OrNum(a.height, 50.0)
      && r.y == pages[a.pageIndex] - a.y - OrNum(a.height, 0.0)
      && (OrNum(a.height, 0.0) != 0.0 ==> r.y + r.height == pages[a.pageIndex] - a.y)
      && (OrNum(a.height, 0.0) == 0.0 ==> r.y == pages[a.pageIndex] - a.y && r.height == 50.0)
  {
  }

  /** Circle: an outlined ellipse centred on the flipped centre of the dragged box,
      with the signed half-width and half-height as scales. */
  lemma CircleExport(pages: seq<real>, a: Annotation)
    requires HasPage(pages, a) && a.kind == Circle
    ensures
      var cs := AnnotationCmds(pages, a);
      var w := OrNum(a.width, 0.0);
      var h := OrNum(a.height, 0.0);
      && |cs| == 1 && cs[0].page == a.pageIndex
      && var e := cs[0].prim;
      && e.DrawEllipse? && e.borderColor == Some(HexToRgb(a.color)) && e.borderWidth == Some(a.thickness)
      && Point(e.x, e.y) == Flip(pages[a.pageIndex], Point(a.x + w / 2.0, a.y + h / 2.0))
      && 2.0 * e.xScale == w && 2.0 * e.yScale == h
  {
  }

  /** Line: one segment between the first two points, each flipped on its own, with
      the annotation's thickness and colour and no opacity, only when there are at
      least two points. */
  lemma LineExport(pages: seq<real>, a: Annotation)
    requires HasPage(pages, a) && a.kind == Line
    ensures
      var cs := AnnotationCmds(pages, a);
      var height := pages[a.pageIndex];
      && (a.points.None? || |a.points.value| < 2 ==> cs == [])
      && (a.points.Some? && |a.points.value| >= 2 ==>
            && |cs| == 1 && cs[0].page == a.pageIndex && cs[0].prim.DrawLine?
            && cs[0].prim == DrawLine(cs[0].prim.start, cs[0].prim.end, a.thickness, Some(HexToRgb(a.color)), None)
            && Flip(height, cs[0].prim.start) == a.points.value[0]
            && Flip(height, cs[0].prim.end) == a.points.value[1])
  {
    if a.points.Some? && |a.points.value| >= 2 {
      FlipInvolution(pages[a.pageIndex], a.points.value[0]);
      FlipInvolution(pages[a.pageIndex], a.points.value[1]);
    }
  }

  /** Freehand: n > 1 points give exactly n - 1 segments, segment i joining points
      i and i + 1; fewer points give nothing. */
  lemma FreehandExport(pages: seq<real>, a: Annotation)
    requires HasPage(pages, a) && a.kind == Draw
    ensures
      var cs := AnnotationCmds(pages, a);
      var height := pages[a.pageIndex];
      && (a.points.None? || |a.points.value| <= 1 ==> cs == [])
      && (a.points.Some? && |a.points.value| > 1 ==>
            && |cs| == |a.points.value| - 1
            && forall i :: 0 <= i < |cs| ==>
                 && cs[i].page == a.pageIndex && cs[i].prim.DrawLine?
                 && Flip(height, cs[i].prim.start) == a.points.value[i]
                 && Flip(height, cs[i].prim.end) == a.points.value[i + 1])
  {
    if a.points.Some? && |a.points.value| > 1 {
      var pts := a.points.value;
      var height := pages[a.pageIndex];
      var cs := FreehandSegments(a.pageIndex, height, pts, a.thickness, HexToRgb(a.color));
      assert AnnotationCmds(pages, a) == cs;
      forall i | 0 <= i < |cs|
        ensures cs[i].prim.DrawLine?
        ensures Flip(height, cs[i].prim.start) == pts[i] && Flip(height, cs[i].prim.end) == pts[i + 1]
      {
        FlipInvolution(height, pts[i]);
        FlipInvolution(height, pts[i + 1]);
      }
    }
  }
}
