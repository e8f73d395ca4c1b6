# PDF annotation editor — a Dafny model of its core

The application opens a PDF in the browser, lets the user lay annotations over its pages (text, highlight, freehand strokes, lines, rectangles and ellipses), and exports a new PDF with those annotations drawn into the page content. This project models the three parts that decide what ends up in the file:

- **Landing** (`landing.dfy`). This is the file boundary. A file is accepted when its MIME type is `application/pdf` or its name ends in `.pdf` in any letter case. The first 1024 bytes are then searched for the `%PDF-` header signature (section 7.5.2 of ISO 32000-1). Any bytes in front of the header are stripped. `FindHeader` is the scan loop over an `array<byte>`. `ProcessFile` is the whole upload step, and it returns the `PdfFile` handed to the editor or the reason the file was refused.
- **Editor** (`editor.dfy`). This is the annotation session. `Session` is a class whose fields are the editor's state variables. Its methods are the mouse-down, mouse-move and mouse-up handlers, the property update of the selected annotation and the delete button. The pure parts are separate functions:
  - pointer-to-canvas mapping (`MousePos`);
  - hit-testing (`FirstHit`);
  - the records a gesture creates (`TextAnnotation`, `ShapeAnnotation`);
  - the property merge (`Merge`, `UpdateSelected`);
  - filtering (`Remove`);
  - what the overlay canvas draws (`Shape`, `Scene`, `Preview`).
- **PdfService** (`pdf_service.dfy`). This is the export transform:
  - `HexToRgb` reads the colour strings;
  - `SavePdfWithAnnotations` loops over the annotations and issues one PDF-library drawing call per shape, or one per segment of a freehand stroke;
  - every y coordinate is turned from the overlay's top-left origin into the page's bottom-left origin (section 8.3.2.3 of ISO 32000-1).

  The loaded document is given as its sequence of page heights, and the drawing calls are recorded as a sequence of `DrawCmd`s. The loop is proved against the specification function `ExportCmds`, and the properties of the export are lemmas about that function.

`types.dfy` holds the record types shared by all three parts:
- `Annotation`: the source's `type` field is called `kind`, and optional fields are `Option`s.
- `PdfFile`, `EditorTool`, `Point` and `TextAlignment`.
- `OrNum`: JavaScript's `v || d` on an optional number.
- `FlatMap`: the order-preserving concatenation that both the export and the overlay use, with its lemmas.

JavaScript numbers are modelled as exact reals.

Three behaviours of the code worth knowing:
- Deleting an annotation does not clear the selection.
- Selecting an annotation does not copy its style into the current tool settings.
- A freehand annotation may hold a single point. It is drawn on the overlay and exports nothing.

## Model

| member | source | states |
|---|---|---|
| Types.OrNum | services/pdfService.ts:40-41 | `v \|\| d` on an optional number is the default exactly when the value is absent or zero, and the value otherwise |
| Landing.IsPdfCandidate | components/Landing.tsx:15 | a file passes the type test iff its MIME type is `application/pdf` or its last four characters are `.`, `p`/`P`, `d`/`D`, `f`/`F` |
| Landing.HeaderAtInside | components/Landing.tsx:29-34 | the five byte comparisons succeed at `i` iff all five bytes lie inside the buffer and spell `%PDF-` |
| Landing.FindHeader | components/Landing.tsx:24-38 | the result is -1 or lies below min(length, 1024); a found offset holds the signature and no earlier one does; -1 means no offset in the window holds it |
| Landing.ProcessFile | components/Landing.tsx:13-52 | a file failing the type test is refused for its type; a file is uploaded iff it passes the type test and a header starts in the window; an upload carries the name, the bytes from the first header on (which begin with `%PDF-`) and the original byte length |
| PdfService.HexToRgb | services/pdfService.ts:5-12 | every channel is in [0, 1]; a string that is not six hex digits (with an optional leading `#`) is black |
| PdfService.HexRoundTrip | services/pdfService.ts:5-12 | reading back any colour written as six hex digits, each digit in either case (mixed case included) and with or without `#`, gives each byte divided by 255 |
| PdfService.ShorthandIsBlack | services/pdfService.ts:6-11 | a string of any length other than 6 or 7, such as the shorthand `#abc`, is black |
| PdfService.FreehandSegments | services/pdfService.ts:81-93 | a stroke of n > 1 points gives n - 1 segments, segment i joining flipped points i and i + 1 at full opacity; fewer points give none |
| PdfService.SavePdfWithAnnotations | services/pdfService.ts:14-97 | the loop issues exactly `ExportCmds`: each annotation's commands in list order, none for an annotation whose page does not exist |
| PdfService.DrawAnnotation | services/pdfService.ts:25-93 | the body of the loop for one annotation issues exactly that annotation's commands on its page |
| PdfService.DrawFreehand | services/pdfService.ts:82-92 | the inner loop issues exactly the segments of the stroke |
| PdfService.PageCmds | services/pdfService.ts:29-93 | every command for an annotation is on the given page; an annotation other than a freehand stroke gives at most one command, and a pointer-tagged one none |
| PdfService.ExportAppend | services/pdfService.ts:21-23 | exporting a concatenated list is exporting each part, one after the other |
| PdfService.ExportInOrder | services/pdfService.ts:21 | annotation i's commands come after those of all earlier annotations and before those of all later ones |
| PdfService.ExportSkipsMissingPage | services/pdfService.ts:22-23 | an annotation whose page index is outside the document changes nothing, wherever it stands |
| PdfService.AnnotationCmds | services/pdfService.ts:22-23 | an annotation whose page does not exist gets no commands; every command it gets is on its own page |
| PdfService.ExportCmds | services/pdfService.ts:21-94 | every command of the whole export targets a page the document has |
| PdfService.TextExport | services/pdfService.ts:29-44 | text without content draws nothing; with content, one text call whose top (baseline plus `fontSize \|\| 12`) is the flipped anchor, of size `fontSize \|\| 14`, nudged 0, -50 or -100 for left, center or right, in Courier iff the family is `Courier` |
| PdfService.HighlightExport | services/pdfService.ts:45-53 | one filled rectangle at opacity 0.4, `width \|\| 100` by `height \|\| 15`, at x = the anchor's x, whose `y` edge is 15 below the flipped anchor whatever the height (so its `y + height` edge is the flipped anchor only for height 15) |
| PdfService.SquareExport | services/pdfService.ts:54-62 | one outlined rectangle `width \|\| 50` by `height \|\| 50` at the anchor's x with `y` the flipped anchor less `height \|\| 0`; so for a non-zero height its `y + height` edge is the flipped anchor (the top for a downward drag, the bottom for an upward one), and a zero or missing height puts its `y` edge at the flipped anchor with height 50 |
| PdfService.CircleExport | services/pdfService.ts:63-71 | one outlined ellipse centred on the flipped centre of the dragged box, with the signed half-extents as scales |
| PdfService.LineExport | services/pdfService.ts:72-80 | with two or more points, one segment whose ends flip back to the first two points, drawn with the annotation's thickness and colour and no opacity; otherwise nothing |
| PdfService.FreehandExport | services/pdfService.ts:81-93 | with n > 1 points, n - 1 segments on the annotation's page, segment i's ends flipping back to points i and i + 1; otherwise nothing |
| Editor.MousePos | components/Editor.tsx:149-156 | with no overlay the position is (0, 0); otherwise each axis offset from the rectangle's corner is scaled by canvas size over displayed size |
| Editor.MousePosFraction | components/Editor.tsx:149-156 | a click at a fraction of the displayed rectangle lands at the same fraction of the canvas |
| Editor.FirstHit | components/Editor.tsx:162-165 | the result is the first annotation in array order on the current page whose anchor is within 20 on both axes; none iff no annotation is |
| Editor.HitIgnoresOtherPages | components/Editor.tsx:162-165 | an annotation on another page is never hit |
| Editor.HitId | components/Editor.tsx:162-166 | the click selects nothing iff no annotation is near; otherwise it selects the id of the first annotation in array order that is near |
| Editor.TextAnnotation | components/Editor.tsx:177-189 | a text click creates a text record at the click with the entered content, on the current page, carrying the current colour, thickness, size, family and alignment |
| Editor.ShapeAnnotation | components/Editor.tsx:204-218 | a drag creates a record anchored at the start whose signed width and height reach the last sampled point; a line keeps start and end, the other tools keep the whole path |
| Editor.DragUpLeftIsSigned | components/Editor.tsx:210-213 | dragging from (10, 10) to (5, 30) gives width -5 and height 20: extents are signed, not normalised |
| Editor.Merge | components/Editor.tsx:229 | spreading property updates over an annotation sets each field the patch holds (colour, thickness, content, font size, family, alignment) to the patch's value, keeps each field it lacks, and never changes the id, tool, anchor, extent, page or points |
| Editor.MergeIdempotent | components/Editor.tsx:229 | merging the same updates twice equals merging them once |
| Editor.UpdateWhere | components/Editor.tsx:229 | the map keeps the length, merges each entry with the given id and leaves every other entry as it was |
| Editor.UpdateSelected | components/Editor.tsx:227-230 | an update keeps the length and, entry by entry, the id, tool, page, anchor, extent and points |
| Editor.UpdateSelectedFrame | components/Editor.tsx:227-230 | with no (or an empty) selected id nothing changes; otherwise the length, order and ids are kept, only entries with the selected id change, and they become the merge |
| Editor.UpdateSelectedIdempotent | components/Editor.tsx:227-230 | applying the same update twice equals applying it once |
| Editor.Remove | components/Editor.tsx:331 | the filter never lengthens the list |
| Editor.RemoveMembers | components/Editor.tsx:331 | an annotation survives the delete iff it was there and its id is not the selected one |
| Editor.RemoveAppend | components/Editor.tsx:331 | filtering works piecewise over concatenation, so survivors keep their order |
| Editor.RemoveNone | components/Editor.tsx:331 | deleting an id no entry carries changes nothing |
| Editor.RemoveSelectedOne | components/Editor.tsx:331 | with unique ids, deleting the id of entry k removes exactly entry k |
| Editor.FindSelected | components/Editor.tsx:259 | the lookup returns the first entry in array order with the selected id, and none iff no entry carries it |
| Editor.DeleteLeavesNothingSelected | components/Editor.tsx:259 | after a delete the selected id finds no annotation, so the properties panel closes |
| Editor.Shape | components/Editor.tsx:86-119 | one annotation is drawn with at most one command, in its own colour and thickness; highlights (and pointer-tagged records) are drawn nothing |
| Editor.Scene | components/Editor.tsx:85-120 | the overlay draws at most one command per annotation, and nothing when no annotation is on the current page |
| Editor.SceneInOrder | components/Editor.tsx:85 | the overlay draws annotation i after all earlier annotations and before all later ones |
| Editor.SceneSkipsOtherPages | components/Editor.tsx:85 | annotations of other pages are never drawn, wherever they stand |
| Editor.EllipseInscribed | components/Editor.tsx:110-113 | the ellipse has non-negative radii and spans the dragged box from its smaller to its larger coordinate on each axis, whatever the drag direction |
| Editor.Preview | components/Editor.tsx:123-143 | the preview is at most one command, in the current colour and thickness, and nothing outside a gesture or for the pointer, text and highlight tools |
| Editor.PreviewMatchesCommitted | components/Editor.tsx:122-143 | while dragging with a shape tool, the preview is exactly what the overlay draws for the annotation that releasing the mouse creates; other tools preview nothing |
| Editor.ExportFlipsOverlay | components/Editor.tsx:99-119 | for ellipses, rectangles with non-zero extent, lines and freehand strokes, the exported drawing is the overlay's drawing turned upside down on the page |
| Editor.HighlightOnlyExported | components/Editor.tsx:99-119 | a highlight is drawn nothing on the overlay, yet the export draws it as one filled rectangle in its colour |
| Editor.SquareOverlay | components/Editor.tsx:108-109 | a square is outlined from its anchor with extents `\|\| 0`; a missing or zero extent is flat on the overlay but 50 long in the export |
| Editor.LineOverlay | components/Editor.tsx:114-119 | a line with at least two points is drawn as exactly one segment from its first point to its second, in its own colour and thickness; with fewer points it is drawn nowhere |
| Editor.TextOverlay | components/Editor.tsx:104-107 | text with content is filled at its anchor with its alignment (left when unset), and the export shifts it by the alignment nudge with the anchor at the top of the glyph box; text without content is drawn nowhere |
| Editor.FreehandOverlay | components/Editor.tsx:99-103 | a freehand stroke is one path from its first point through all its points; a one-point stroke is drawn on the overlay but exports nothing; one without points is drawn nowhere |
| Editor.Session.constructor | components/Editor.tsx:20-36 | a new session has the pointer tool, no annotations, no selection, page 0, colour `#2563eb`, thickness 2, font size 16, family `Inter`, left alignment and no gesture |
| Editor.Session.MouseDown | components/Editor.tsx:158-195 | the pointer tool selects the first hit (or clears the selection); any other tool starts a gesture at the mapped point; the text tool ends it at once and, with a non-empty reply, appends a selected text annotation; the settings never change and the invariant is kept |
| Editor.Session.MouseMove | components/Editor.tsx:197-200 | during a gesture the mapped point is appended to the path; otherwise nothing changes |
| Editor.Session.MouseUp | components/Editor.tsx:202-225 | ending a gesture with a shape tool appends the dragged shape and selects it; every gesture ends with an empty path; without a gesture nothing changes |
| Editor.Session.UpdateSelectedProps | components/Editor.tsx:227-230 | the annotations become `UpdateSelected` of the old ones, keeping every annotation drawable |
| Editor.Session.DeleteSelected | components/Editor.tsx:331 | the annotations become the old ones without the selected id, keeping every annotation drawable |
| Editor.Session.DrawAnnotations | components/Editor.tsx:78-145 | the overlay draws the current page's annotations, then exactly the gesture preview (at most one command, none outside a gesture) |
| Editor.DragShowsCommitted | components/Editor.tsx:123-143 | during a drag with a shape tool the overlay already shows what releasing the mouse commits: the drawing equals the scene with the new shape appended |

## Left out

- Rendering and the page UI are not modelled: the JSX, the pdf.js page rendering, the toolbar and the properties panel markup.
- The AI summary (`handleAISummary`, the summary service) is outside the modelled core.
- File reading is not modelled: `File.arrayBuffer`, its try/catch and the alert dialogs are I/O. `ProcessFile` receives the bytes already read, and a refusal is the `Rejection` value.
- The download step is not modelled: the `Blob` and link creation are I/O.
- The PDF library's parts are not modelled: `PDFDocument.load`, `embedFont` and `save`. The document is its sequence of page heights and the drawing calls are recorded, not rendered. A parse failure of the library is not modelled.
- Canvas styling is not modelled: line caps, the selection shadow, the font string and the clearing of the canvas change no geometry.
- Floating point is exact: JavaScript numbers are exact reals, so NaN, infinities and rounding are not modelled. A `parseInt` that yields NaN in the properties panel is included in this.
- Editor.MousePos: requires a non-zero displayed rectangle. With IEEE arithmetic, a zero-size rectangle gives infinities or NaN, which reals cannot represent.
- Landing.Lower: lower-cases ASCII letters only. For the `.pdf` test this is exact, because no non-ASCII character lower-cases to text ending in `.`, `p`, `d` or `f` (the Kelvin sign becomes `k`, and dotted capital I becomes `i` followed by a combining dot).
- Landing.ProcessFile: the stripped bytes are a value. Whether the unsliced buffer is shared with the input (the `startIndex === 0` branch) is not modelled.
- Buffer reads past the end: the byte at an offset past the end is modelled as absent, which compares unequal to every signature byte, as `undefined` does.
- PdfService.SavePdfWithAnnotations: page indices are integers. A fractional index, which JavaScript would also look up and miss, is not representable.
- The canvas render scale of 1.5 (components/Editor.tsx:61) is not modelled. The export places annotations in canvas pixels as written; the model states the coordinates the code passes, not how they relate to page units.
- Editor.Shape: a freehand annotation with an empty point list, or a line with fewer than two points, draws nothing here, where the canvas code would read a missing point and throw. The `Valid` invariant of `Session` shows a session never creates such annotations.
- Editor.Preview: a gesture whose path is empty draws no preview. `Valid` rules this state out.
- Editor.Patch: holds the six fields the properties panel edits (colour, thickness, content, font size, family, alignment). The geometric fields of `Partial<Annotation>` are never passed to `updateSelected` and are not modelled.
- Identifier generation (`Math.random`) and the text prompt are inputs to the handlers (`newId`, `reply`).
- Page navigation and `numPages` are not modelled; `currentPage` is a plain field.
