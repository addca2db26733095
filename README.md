# PDF annotator: a Dafny model of its event handlers

The annotator loads a PDF in the browser, shows one page at a time, and lets the user put highlights, underlines, comments and drawn signatures over the page. Its behaviour sits in a few event handlers. Each handler is a sequential transition over component state. This project models every handler as one atomic transition over an explicit state record:

- `Viewer` (`pdf_viewer.dfy`) models the viewer. Its state is the page number, clamped to [1, numPages], and the zoom scale, clamped to [0.5, 3]. The scale is kept in integer tenths (10 at first, bounds 5 and 30, step 2). The state also holds the append-only log of `AnnotationData` records, the overlay elements on the annotation layer, and the pending click anchors for signatures and comments.
- `Upload` (`upload_area.dfy`) models the drop zone. It routes the dropzone's rejections to messages and checks the file header. The header check builds an unpadded lower-case hex string from the first five bytes and tests it with `startsWith("255044462d")`. `HeaderCheckMatchesMagic` proves that the check accepts exactly the data that begins with the bytes 25 50 44 46 2D. That is the `%PDF-` header of ISO 32000-1:2008, section 7.5.2 (File Header).
- `Home` (`home_page.dfy`) models the page that owns the loaded file and its object URL. The upload handler enforces the 10 MB ceiling, revokes the old URL and installs the new one. The model records revoked URLs as a set. This module also holds the export guard and the export file name.
- `SignaturePad` (`signature_canvas.dfy`) models the drawing pad. The 400x200 canvas is the list of segments stroked on it since it was last cleared. Its invariant says that consecutive segments of one stroke share their endpoints.
- `CommentBox` (`comment_dialog.dfy`) models the comment prompt. Its save fires only when `comment.trim()` is non-empty. `JsString` (`js_string.dfy`) gives `startsWith` and `trim`, with JavaScript's whitespace set.

The DOM, the canvas and the PDF libraries are abstract. Overlay elements are values that carry a number standing for their node identity. Outcomes of I/O (the `FileReader` completion, the object URL `createObjectURL` returns, the export round trip) are parameters of the transitions.

Behaviour of the code that the model makes explicit:

- Page changes keep every annotation record. They remove only the overlay elements.
- The zoom scale leaves the 0.2 grid once it has been clamped at 0.5: 0.5 then zoom in gives 0.7 (`ClampLeavesGrid`).
- A failed upload never replaces the loaded file. But when the new URL is unusable, the old URL has already been revoked, and `pdfUrl` still names it.
- Once a URL is loaded the upload area is not rendered (`!pdfUrl`). So the replacement path of the upload handler cannot be reached from the page.

## Model

| member | source | states |
|---|---|---|
| `JsString.TrimStart` | components/comment-dialog.tsx:17 | the result is the suffix of the string that starts at its first non-whitespace character; everything cut off is whitespace |
| `JsString.TrimEnd` | components/comment-dialog.tsx:17 | the result is the prefix of the string that ends at its last non-whitespace character; everything cut off is whitespace |
| `JsString.Trim` | components/comment-dialog.tsx:17 | `trim()` is exactly the slice of the string between its leading and its trailing whitespace: everything before and after that slice is whitespace, and the slice neither starts nor ends with whitespace |
| `JsString.TrimSlice` | components/comment-dialog.tsx:17 | stripping the leading whitespace and then the trailing whitespace leaves a contiguous slice of the original string, and everything after that slice is whitespace |
| `JsString.TrimEmptyIffBlank` | components/comment-dialog.tsx:17 | `trim()` gives "" exactly when every character is whitespace |
| `Upload.ByteToHex` | components/upload-area.tsx:42 | `toString(16)` of a byte has one digit below 0x10 and two from 0x10 on |
| `Upload.ByteToHexRoundTrip` | components/upload-area.tsx:42 | every printed character is a hex digit (value 0 to 15), and reading the digits back as a hexadecimal numeral gives the byte again |
| `Upload.ByteToHexInjective` | components/upload-area.tsx:41-43 | two bytes that both print as two hex digits print alike only if they are equal |
| `Upload.HexJoin` | components/upload-area.tsx:41-43 | the joined hex string is at most two characters per byte, and exactly two per byte iff every byte is at least 0x10 |
| `Upload.Head` | components/upload-area.tsx:40 | `slice(0, 5)` and `subarray(0, 5)` keep the first min(5, length) bytes |
| `Upload.HeaderAccepted` | components/upload-area.tsx:46 | `header.startsWith("255044462d")` on the bytes read; it can hold only for data of at least five bytes |
| `Upload.HexPrefixMatch` | components/upload-area.tsx:40-46 | comparing the unpadded hex strings by prefix equals comparing the bytes, when the expected bytes are all two-digit and the candidate is no longer |
| `Upload.HeaderCheckMatchesMagic` | components/upload-area.tsx:40-46 | `header.startsWith("255044462d")` holds iff the data has at least five bytes and they are 25 50 44 46 2D (`%PDF-`) |
| `Upload.ShortOrLowByteRejected` | components/upload-area.tsx:40-46 | data shorter than five bytes, or with a byte below 0x10 among its first five, is always refused |
| `Upload.RejectionMessage` | components/upload-area.tsx:22-32 | the message is the invalid-type one iff the first code is "file-invalid-type", the size one iff it is "file-too-large", and starts with "Upload failed: " iff it is neither |
| `Upload.DropResult` | components/upload-area.tsx:16-55 | a file handed on is the first accepted one, with no rejection and no error left; a rejection or a failed read hands nothing on; an empty drop only clears the error |
| `Upload.DropHandsOnlyPdf` | components/upload-area.tsx:22-55 | a drop hands a file to `onFileUpload` iff nothing was rejected, a file was accepted, the read succeeded and the first accepted file starts with `%PDF-`; the file handed on is the first accepted one, and no error is left |
| `Upload.RejectionNeverUploads` | components/upload-area.tsx:22-32 | with any rejection nothing is handed on; the message is chosen by the first error code of the first rejection: invalid type, too large, or "Upload failed: " plus the message |
| `Upload.FailedDropShowsError` | components/upload-area.tsx:18-54 | after a drop with some file, an error shows exactly when no file was handed on |
| `Upload.UploadArea.constructor` | components/upload-area.tsx:13-14 | not dragging, no error |
| `Upload.UploadArea.OnDrop` | components/upload-area.tsx:16-63 | every drop ends with `isDragging` false; the error shown and the file handed on (at most one call) are those of `DropResult` |
| `Home.ExportName` | app/page.tsx:90 | the download name is "annotated-" followed by the file's own name |
| `Home.CeilingsAgree` | components/upload-area.tsx:71 | the dropzone's 10485760 equals the handler's `10 * 1024 * 1024` |
| `Home.CeilingIsInclusive` | app/page.tsx:44-61 | on any valid page, uploading a file of exactly 10485760 bytes with a usable URL loads that file and URL and leaves no error |
| `Home.HomePage.constructor` | app/page.tsx:25-29 | no file, no URL, no error, nothing revoked, tool "highlight", colour "#FFFF00", upload area shown |
| `Home.HomePage.ShowsUploadArea` | app/page.tsx:111-113 | on a valid page, the upload area is shown exactly when no file is loaded |
| `Home.HomePage.HandleFileUpload` | app/page.tsx:40-73 | an oversized file only sets the size message; otherwise the current URL is revoked first; a usable new URL replaces file and URL and clears the error (a fresh URL is not revoked); an empty or "about:blank" URL, or an exception, sets its message and keeps file and URL |
| `Home.HomePage.HandleExport` | app/page.tsx:75-98 | with no file nothing happens; otherwise the error is cleared and the download is named `ExportName(file)`, or the export message is set when the round trip fails |
| `Home.HomePage.ReportError` | app/page.tsx:126 | the viewer's error becomes the banner |
| `CommentBox.CommentDialog.constructor` | components/comment-dialog.tsx:14 | the comment starts empty |
| `CommentBox.CommentDialog.OnChange` | components/comment-dialog.tsx:30 | the comment becomes the typed value |
| `CommentBox.CommentDialog.AddDisabled` | components/comment-dialog.tsx:38 | the Add button is disabled exactly when the comment has no non-whitespace character |
| `CommentBox.CommentDialog.HandleSave` | components/comment-dialog.tsx:16-20 | `onSave` fires, with the untrimmed comment, iff the comment has a non-whitespace character, which is iff the Add button is enabled; otherwise nothing fires |
| `CommentBox.CommentDialog.Handle` | components/comment-dialog.tsx:23-38 | Cancel and closing call `onCancel` and never `onSave`; Add calls `onSave(comment)` iff the comment has content |
| `SignaturePad.CanvasPoint` | components/signature-canvas.tsx:24-26 | the canvas-relative point plus the canvas origin is the cursor's client position |
| `SignaturePad.SignatureCanvas.constructor` | components/signature-canvas.tsx:16-18 | not drawing, last point (0, 0), blank surface |
| `SignaturePad.SignatureCanvas.StartDrawing` | components/signature-canvas.tsx:20-31 | drawing starts at the cursor's canvas-relative position; the surface is untouched |
| `SignaturePad.SignatureCanvas.Draw` | components/signature-canvas.tsx:33-54 | while drawing, one black, 2-wide, round-capped segment from the last point to the cursor is added, and the cursor becomes the last point; otherwise nothing changes; the invariant keeps consecutive segments of a stroke connected |
| `SignaturePad.SignatureCanvas.StopDrawing` | components/signature-canvas.tsx:56-58 | mouse up and mouse out end the stroke and change nothing else |
| `SignaturePad.SignatureCanvas.ClearCanvas` | components/signature-canvas.tsx:60-66 | the whole surface is wiped; drawing state and last point are untouched |
| `SignaturePad.SignatureCanvas.SaveSignature` | components/signature-canvas.tsx:68-74 | the image handed to `onSave` is the current surface, and the surface is not cleared; without a canvas nothing is handed on |
| `Viewer.PrevPage` | components/pdf-viewer.tsx:121 | the previous page is never below 1 nor after the current page, and is either one back or 1 |
| `Viewer.NextPage` | components/pdf-viewer.tsx:124 | with the count unknown (or 0) the page stays; otherwise the next page is at most numPages, and is either one on or numPages |
| `Viewer.ZoomIn` | components/pdf-viewer.tsx:128 | the scale never exceeds 3, and is either 0.2 up or 3 |
| `Viewer.ZoomOut` | components/pdf-viewer.tsx:131 | the scale never drops below 0.5, and is either 0.2 down or 0.5 |
| `Viewer.PageStepInRange` | components/pdf-viewer.tsx:120-125 | one Previous or Next click keeps the page in [1, numPages]; Next is a no-op while the count is unknown; Previous is a no-op only on page 1 |
| `Viewer.PagesStayInRange` | components/pdf-viewer.tsx:41 | any run of Previous/Next clicks from an in-range page stays in [1, numPages] |
| `Viewer.UnknownCountPinsFirstPage` | components/pdf-viewer.tsx:40-41 | while the page count is unknown, navigation cannot leave page 1 |
| `Viewer.ZoomStepInRange` | components/pdf-viewer.tsx:127-132 | one zoom click keeps the scale in [0.5, 3]; zoom in at 3 and zoom out at 0.5 are the only no-ops |
| `Viewer.ScalesStayInRange` | components/pdf-viewer.tsx:42 | any run of zoom clicks from an in-range scale stays in [0.5, 3] |
| `Viewer.ClampLeavesGrid` | components/pdf-viewer.tsx:127-132 | from 1.0, three zoom-outs reach 0.5 and a zoom-in then gives 0.7 |
| `Viewer.SelectionRecords` | components/pdf-viewer.tsx:164-203 | one record per rectangle, in order, with the tool, the current page and colour, the rectangle's size, and position = rectangle origin minus container origin plus scroll |
| `Viewer.SelectionOverlays` | components/pdf-viewer.tsx:174-192 | one element per rectangle, numbered in order, at left = rectangle left minus container left plus scroll; a highlight is a box of the rectangle's size at the rectangle's top; an underline is a rule of its width moved down to top plus height |
| `Viewer.Detach` | components/pdf-viewer.tsx:267 | exactly the elements with another number stay; removing an absent element changes nothing |
| `Viewer.DetachConcat` | components/pdf-viewer.tsx:266-267 | removal works piece by piece along the layer, so the elements that stay keep their order |
| `Viewer.PdfViewer.constructor` | components/pdf-viewer.tsx:40-64 | page 1, scale 1.0, count unknown, no anchors, no modals, no records, no elements |
| `Viewer.PdfViewer.DocumentLoaded` | components/pdf-viewer.tsx:108-112 | the page count becomes known; the page stays in range |
| `Viewer.PdfViewer.PageChanged` | components/pdf-viewer.tsx:265-270 | every listed element is removed from the layer and the list is emptied; the records are not touched |
| `Viewer.PdfViewer.HandlePrevPage` | components/pdf-viewer.tsx:120-122 | the page becomes `max(page - 1, 1)`; if it moved, the layer and the element list are emptied |
| `Viewer.PdfViewer.HandleNextPage` | components/pdf-viewer.tsx:123-125 | the page becomes `min(page + 1, numPages)`, unchanged while the count is unknown; if it moved, the layer and the element list are emptied |
| `Viewer.PdfViewer.HandleZoomIn` | components/pdf-viewer.tsx:127-129 | the scale moves up by 0.2, clamped at 3, and stays in bounds |
| `Viewer.PdfViewer.HandleZoomOut` | components/pdf-viewer.tsx:130-132 | the scale moves down by 0.2, clamped at 0.5, and stays in bounds |
| `Viewer.PdfViewer.HandleContainerClick` | components/pdf-viewer.tsx:134-148 | the anchor is the click minus the container origin, with no scroll; the signature tool stores it and opens the pad, the comment tool stores it and opens the prompt, and any other tool changes nothing |
| `Viewer.PdfViewer.HandleTextSelection` | components/pdf-viewer.tsx:150-210 | with highlight or underline, non-empty text and N rectangles: appends exactly `SelectionRecords` (N records) and `SelectionOverlays` (N elements) and clears the selection; otherwise nothing changes |
| `Viewer.PdfViewer.HandleAddSignature` | components/pdf-viewer.tsx:212-238 | no stored anchor: nothing changes; otherwise one image element and one signature record (current page, anchor, image) are appended and the pad closes |
| `Viewer.PdfViewer.HandleAddComment` | components/pdf-viewer.tsx:240-263 | no stored anchor: nothing changes; otherwise one callout element and one comment record (current page, anchor, text) are appended and the prompt closes |
| `Viewer.PdfViewer.CancelSignature` | components/pdf-viewer.tsx:369 | cancelling the pad only hides it |
| `Viewer.PdfViewer.CancelComment` | components/pdf-viewer.tsx:375 | cancelling the prompt only hides it |

Every `PdfViewer` transition keeps `Valid()`: the page is in range and stays 1 while the count is unknown, the scale is in range, and the layer shows exactly the listed elements. Each method's frame names the fields it may change. So `annotationData` is never changed except by appending, in `HandleTextSelection`, `HandleAddSignature` and `HandleAddComment`.

`Viewer.HighlightThenNavigate` replays a short session. It loads a three-page document, makes a two-line highlight on page 1, goes to page 2 and back, and asserts the outcome: two records for page 1 in the chosen colour, and an empty layer after each page change.

Every `SignatureCanvas` method states how it changes the ghost set `strokeStarts` (the positions where a stroke began). So the connectivity clause of `Valid()` cannot be emptied by marking every position as a stroke start.

## Left out

- The PDF rendering library is not modelled: the worker setup, `Document`/`Page`, `onDocumentLoadError` and the loading spinner. Only the page count that `onDocumentLoadSuccess` reports is kept.
- The `fetch` of the PDF bytes in the viewer is not modelled. It is asynchronous I/O whose only effect on the modelled state is an error message.
- Stale fetches and React batching are out of scope. Each handler is one atomic step, and there is no concurrency in the model.
- The pdf-lib load/save round trip, the blob and the download link of the export are foreign I/O. The round trip's success is the parameter `roundTripOk`.
- Upload.UploadArea.OnDrop requires the first rejection to carry at least one error. react-dropzone always reports one, and with none the source's `rejection.errors[0].code` would throw a TypeError, which is not modelled.
- Upload.UploadArea.OnDrop: the `FileReader` is not modelled. Its completion (`onload` or `onerror`) is a parameter of the drop. The `catch` path "Failed to process the file" is not modelled, because it fires only when the browser's `FileReader` itself throws.
- The `containerRef`/`annotationLayerRef` null checks are not modelled: the refs are always attached while these handlers can run. The `try`/`catch` around the selection is not modelled either: a selection with non-empty text always has a first range.
- Viewer.PdfViewer.HandleTextSelection: `selection.removeAllRanges()` is modelled only as the returned flag `cleared`.
- Viewer.PdfViewer.DocumentLoaded requires that a repeated load reports the same count. The fetch effect can re-run, but the viewer's URL never changes while it is shown.
- IEEE floating point is not modelled. The scale is in integer tenths and coordinates are integers, so rounding of `scale ± 0.2` is not captured.
- SignaturePad.SignatureCanvas.SaveSignature returns the surface itself, not its PNG data URL: the encoding is done by the browser. Canvas pixels, and the clipping of segments to the 400x200 surface, are not modelled.
- Viewer.PdfViewer.HandleAddSignature takes the data URL as given. It is not connected to a `SignatureCanvas` instance, because each modal is its own component.
- Home.HomePage.HandleFileUpload: revoked URLs form a set. So the second revocation of the old URL by the effect cleanup is recorded, but it is not visible as a second entry.
- The toolbar (tool and colour pickers) and the layout file are UI chrome and are not modelled. So is the unused `Annotation` interface of lib/types.ts; only its `AnnotationType` is kept.
- Console logging is not modelled.
