# HVO fuel entry and invoice: a Dafny model

This project models the front-end logic of a small fuel-recording app. Drivers
enter a fuel entry (date, vehicle from a fixed roster, HVO quantity in litres,
signature). Each entry is appended to a spreadsheet ledger. For a chosen date,
the invoice page lists the entries, totals the litres, and lets a row be
edited or deleted. It exports the invoice as a one-page PDF once a
confirmation signature is drawn. The model covers four parts:

- `vite_config.dfy` (module `ViteProxy`) is pure string logic. It extracts the
  Apps Script deployment path `/macros/s/<id>/exec` from the configured URL,
  with a fixed fallback, and rewrites `/api/google-sheets…` request paths onto
  it.
- `invoice_generator.dfy` (module `Invoice`) is mixed.
  - Pure functions: normalising the listing response, the litre total, the
    edit draft and the save decision, and the page-fit arithmetic.
  - The class `InvoiceGenerator` holds the page's state: selected date,
    per-date listing cache, edit and delete dialogs, pending mutations,
    export flag, and the logs of issued mutations and saved files.
- `signature_pad.dfy` (module `Signature`) holds the drawing state machine
  (`isDrawing`, `hasSignature`). The canvas is the set of marks it shows plus
  the context's current path. Every value passed to the change callback is
  logged.
- `survey_form.dfy` (module `Entry`) models the entry form. It covers
  validation, the appended record, and the submit workflow around the remote
  append.
- `common.dfy` (module `Common`) holds JavaScript truthiness on strings, the
  optional-value type and the fleet roster.

Some collaborators are not part of the model: the remote ledger, the browser
clock, `parseFloat`, `String(number)`, the canvas encoder (`toDataURL`) and
the rasteriser. They appear as parameters:
- Remote calls are split into an "issue" method and a "settled(ok)" method.
- The clock is a `today` string.
- The conversions and encoders are function-typed constructor parameters.

Lengths are in millimetres, sizes in CSS pixels and quantities in litres. All
of them are exact `real`s.

Some behaviour of the code is easy to misread. The model follows the code:
- Releasing the pointer after a stroke reports the canvas image even when
  nothing was drawn. It does not report `null` for an empty surface.
- Export has no failure path that resets the exporting state.
- The export saves the document the code builds (`Invoice.MakePdfAsWritten`).
  A page less than 210 mm tall comes out turned on its side, as the
  "## Findings" table describes. `Invoice.MakePdf` is the corrected document,
  and it equals the saved one exactly when the page is at least 210 mm tall
  (`Invoice.AsWrittenAgreesWhenTall`).
- The 297 operand of `min(297, imgHeight + 30)` never cuts the page short.
  The page is always `imgHeight + 30` (`Invoice.FitPage`), and exactly 297 mm
  when the image was shrunk to the 267 mm box (`Invoice.TallRasterFillsPage`).
- A failed update or delete only shows a message. It does not refresh the
  list. A failed update leaves the edit dialog open.
- The delete confirmation closes as soon as it is confirmed. Its confirm
  button is the dialog's closing action, so the dismissal handler clears the
  target while the delete is still pending (`Invoice.InvoiceGenerator.ConfirmDelete`).
- The entry form's signature pad is remounted empty whenever the success
  state flips (`Entry.SurveyForm.PadKey`). The stored signature does not follow
  the pad. A signature drawn during the three-second success state stays in
  the form after the timer remounts a blank pad. A second success within
  those three seconds resets the stored signature without remounting, so
  the pad keeps showing strokes that the form no longer holds.
- A row that has neither `rowIndex` nor `id` is targeted by its position. For
  the first row that position is 0, which is falsy, so its delete
  confirmation never opens (`Invoice.PositionalTargetTruthy`).

## Model

| member | source | states |
|---|---|---|
| `Common.RosterShape` | src/components/SurveyForm.jsx:13-28 | the roster has 14 distinct, non-empty vehicle plates |
| `ViteProxy.ScriptUrl` | vite.config.js:8 | an unset environment variable reads as the empty string; a set one is used as is |
| `ViteProxy.SlashFrom` | vite.config.js:9 | finds the end of the `[^/]+` run: every character before it is not a slash, and the character at it is a slash unless the string ends |
| `ViteProxy.MatchesAt` | vite.config.js:9 | the pattern matches at a start and a segment end; every match is itself a well-formed deployment path |
| `ViteProxy.MatchAt` | vite.config.js:9 | returns a segment end exactly when the pattern matches at that start; `None` means no match starts there |
| `ViteProxy.MatchUnique` | vite.config.js:9 | at a given start the pattern matches in at most one way |
| `ViteProxy.FindFrom` | vite.config.js:9 | returns a match with no match starting before it, or `None` when no match starts at or after the position |
| `ViteProxy.ScriptPath` | vite.config.js:9-10 | the result is `/macros/s/` + non-empty slash-free segment + `/exec`; it is the leftmost match when one exists and the fixed default when none does |
| `ViteProxy.DefaultIsScriptPath` | vite.config.js:10 | the fallback path has that same form |
| `ViteProxy.MatchHasLeftmost` | vite.config.js:9-10 | a URL with any match has a leftmost one, and the extracted path is that substring |
| `ViteProxy.WholeMatch` | vite.config.js:9 | a well-formed deployment path is matched whole, from its first character |
| `ViteProxy.ScriptPathIdempotent` | vite.config.js:9-10 | extracting from an extracted path returns it unchanged |
| `ViteProxy.Rewrite` | vite.config.js:24 | a leading `/api/google-sheets` is replaced by the script path and the rest of the path is kept; any other path is returned unchanged |
| `ViteProxy.RewriteInjective` | vite.config.js:24 | two proxied paths with the same rewrite are equal |
| `ViteProxy.ProxyTarget` | vite.config.js:8-24 | a proxied request goes to a path under `/macros/s/`; others pass unchanged |
| `Invoice.Normalize` | src/components/InvoiceGenerator.jsx:52 | an array listing is used as is, an envelope's `surveys` list is used, and an envelope without it gives no rows |
| `Invoice.NormalizeShapeIndependent` | src/components/InvoiceGenerator.jsx:52 | a bare array and an envelope holding it show the same rows |
| `Invoice.Contribution` | src/components/InvoiceGenerator.jsx:77 | a row adds its quantity, or 0 when it has none |
| `Invoice.Total` | src/components/InvoiceGenerator.jsx:77 | the `reduce` fold from 0: no rows total 0 and one row totals its contribution; the lemmas below state the rest |
| `Invoice.TotalAppend` | src/components/InvoiceGenerator.jsx:77 | the total of a concatenation is the sum of the two totals |
| `Invoice.TotalPermutation` | src/components/InvoiceGenerator.jsx:77 | any reordering of the rows has the same total |
| `Invoice.TotalNonNegative` | src/components/InvoiceGenerator.jsx:77 | rows with non-negative quantities have a non-negative total |
| `Invoice.TotalMissingQuantity` | src/components/InvoiceGenerator.jsx:77 | the empty list totals 0 and a row with no quantity adds nothing |
| `Invoice.TargetId` | src/components/InvoiceGenerator.jsx:252 | the target is `rowIndex`, else `id`, else the row's position |
| `Invoice.PositionalTargetTruthy` | src/components/InvoiceGenerator.jsx:384 | a row targeted by its position opens the delete confirmation exactly when it is not the first row |
| `Invoice.DraftOf` | src/components/InvoiceGenerator.jsx:251-256 | the draft carries the target id, the vehicle, the type with `HVO` for a missing one, and the quantity as text (empty when missing) |
| `Invoice.DecideSave` | src/components/InvoiceGenerator.jsx:79-90 | nothing without a draft; blocked exactly when vehicle, type or quantity is empty; otherwise the update is for the draft's id with its vehicle, its type and the parsed quantity |
| `Invoice.SaveUnchangedDraft` | src/components/InvoiceGenerator.jsx:251-256 | opening a complete row and saving it unchanged sends back the row's vehicle, type and quantity under its target id |
| `Invoice.FitPage` | src/components/InvoiceGenerator.jsx:137-150 | the image fits 180 x 267 mm with the canvas aspect ratio and fills one of the two sides; width is 180 exactly when the natural height is at most 267; the page is at most 297 mm tall and leaves exactly 15 mm below the image |
| `Invoice.TallRasterFillsPage` | src/components/InvoiceGenerator.jsx:143-150 | a raster taller than the 180:267 box is shrunk to 267 mm and gets the full 297 mm page |
| `Invoice.MakePage` | src/components/InvoiceGenerator.jsx:151 | the PDF library's page for a format: the same two sides, the longer one upright for portrait and across for landscape |
| `Invoice.MakePdfAsWritten` | src/components/InvoiceGenerator.jsx:150-153 | with the portrait orientation as written, the page is only as wide as the smaller of 210 mm and the page height; it has its intended 210 mm width and 15 mm margins exactly when the page height is at least 210 mm; below 195 mm the image runs past the right edge (`Invoice.ShortCaptureOverflows`) |
| `Invoice.ShortCaptureOverflows` | src/components/InvoiceGenerator.jsx:140-153 | as written, a fitted image under 165 mm tall runs past the right edge of its page |
| `Invoice.AsWrittenAgreesWhenTall` | src/components/InvoiceGenerator.jsx:148-153 | the document as written equals the corrected one exactly when the page is at least 210 mm tall |
| `Invoice.OrientationFor` | src/components/InvoiceGenerator.jsx:151 | the chosen orientation keeps the `[210, pageHeight]` format the way round it is given |
| `Invoice.InvoiceFileName` | src/components/InvoiceGenerator.jsx:154 | the name is `Invoice_` + date + `.pdf`, and the date can be read back from it |
| `Invoice.MakePdf` | src/components/InvoiceGenerator.jsx:137-154 | with the orientation corrected, the document is 210 mm wide and as tall as the fitted page, its image is placed at (15, 15) inside the page with the canvas ratio, and it is named after the date |
| `Invoice.InvoiceGenerator.constructor` | src/components/InvoiceGenerator.jsx:40-46 | the page starts on today's date with no signature, no open dialog, no pending mutation and nothing exported |
| `Invoice.InvoiceGenerator.Surveys` | src/components/InvoiceGenerator.jsx:48 | the rows shown are the selected date's listing, or none while it has not arrived |
| `Invoice.InvoiceGenerator.TotalQuantity` | src/components/InvoiceGenerator.jsx:77 | the total shown is `Total` of the rows shown, and 0 for a day with no rows |
| `Invoice.InvoiceGenerator.EditDialogOpen` | src/components/InvoiceGenerator.jsx:321 | the edit dialog is open exactly while a draft exists |
| `Invoice.InvoiceGenerator.DeleteDialogOpen` | src/components/InvoiceGenerator.jsx:384 | the confirmation is open exactly for a recorded truthy target, never for `0` or `""` |
| `Invoice.InvoiceGenerator.SelectDate` | src/components/InvoiceGenerator.jsx:173 | the date input sets the selected date |
| `Invoice.InvoiceGenerator.ListingLoaded` | src/components/InvoiceGenerator.jsx:48-55 | a response is filed under its own date, so a response for a date no longer selected leaves the shown rows unchanged |
| `Invoice.InvoiceGenerator.SetConfirmationSignature` | src/components/InvoiceGenerator.jsx:291 | the confirmation pad's callback stores the signature |
| `Invoice.InvoiceGenerator.OpenEdit` | src/components/InvoiceGenerator.jsx:251-256 | the edit button opens the row's draft |
| `Invoice.InvoiceGenerator.SetEditVehicle` | src/components/InvoiceGenerator.jsx:330-342 | the picker sets the draft's vehicle to a roster entry and keeps its other fields |
| `Invoice.InvoiceGenerator.SetEditFuelType` | src/components/InvoiceGenerator.jsx:346-357 | the picker sets the draft's type to HVO or Diesel and keeps its other fields |
| `Invoice.InvoiceGenerator.SetEditQuantity` | src/components/InvoiceGenerator.jsx:366-367 | the input sets the draft's quantity text and keeps its other fields |
| `Invoice.InvoiceGenerator.CloseEdit` | src/components/InvoiceGenerator.jsx:373 | cancel closes the edit dialog |
| `Invoice.InvoiceGenerator.HandleEditSave` | src/components/InvoiceGenerator.jsx:79-90 | an update is issued exactly when `DecideSave` says so; every issued update has a vehicle and a type |
| `Invoice.InvoiceGenerator.UpdateSettled` | src/components/InvoiceGenerator.jsx:57-65 | success invalidates only the selected date's listing and closes the dialog; failure leaves both as they were |
| `Invoice.InvoiceGenerator.RequestDelete` | src/components/InvoiceGenerator.jsx:266 | the delete button records the row's target; the confirmation opens exactly when that target is truthy |
| `Invoice.InvoiceGenerator.CancelDelete` | src/components/InvoiceGenerator.jsx:384 | dismissing clears the recorded target |
| `Invoice.InvoiceGenerator.ConfirmDelete` | src/components/InvoiceGenerator.jsx:384-398 | confirming issues one delete for the recorded target and closes the confirmation; every delete ever issued targets a truthy id, so id 0 is never deleted |
| `Invoice.InvoiceGenerator.DeleteSettled` | src/components/InvoiceGenerator.jsx:67-75 | success invalidates only the selected date's listing and closes the confirmation; failure leaves both as they were |
| `Invoice.InvoiceGenerator.ExportToPDF` | src/components/InvoiceGenerator.jsx:92-97 | without a confirmation signature nothing changes and no file is saved; otherwise the page enters the exporting state for the current date |
| `Invoice.InvoiceGenerator.FinishExport` | src/components/InvoiceGenerator.jsx:116-156 | exactly one file, built as written by `MakePdfAsWritten` from a raster twice the 595-pixel capture, is saved, and the exporting state ends; every saved page is at most 210 mm wide and has the intended layout when it is the full 210 mm |
| `Signature.Coordinates` | src/components/SignaturePad.jsx:37-51 | the point plus the surface origin is the event's client position, taken from the first touch for a touch event |
| `Signature.TouchLikeMouse` | src/components/SignaturePad.jsx:41-50 | a touch lands where a mouse event at its first touch point would |
| `Signature.PathSegments` | src/components/SignaturePad.jsx:72-73 | stroking paints only segments, and a path of at most one point paints nothing |
| `Signature.PathSegmentsExtend` | src/components/SignaturePad.jsx:72-73 | extending the path by a point adds exactly the segment that reaches it |
| `Signature.SignaturePad.ShowsPlaceholder` | src/components/SignaturePad.jsx:109-113 | the placeholder shows exactly while the pad is unsigned; when it is hidden the surface shows something |
| `Signature.SignaturePad.constructor` | src/components/SignaturePad.jsx:10-35 | the backing store is twice the surface and the context scale is 2; the pad starts idle, unsigned and blank; a supplied initial image starts loading |
| `Signature.SignaturePad.InitialImageLoaded` | src/components/SignaturePad.jsx:27-33 | the loaded image is drawn and the pad counts as signed, hiding the placeholder |
| `Signature.SignaturePad.StartDrawing` | src/components/SignaturePad.jsx:53-62 | a fresh path starts at the event's point and the stroke is active |
| `Signature.SignaturePad.Draw` | src/components/SignaturePad.jsx:64-75 | with no active stroke nothing changes; otherwise the path is extended to the point, that segment is painted and the pad counts as signed |
| `Signature.SignaturePad.StopDrawing` | src/components/SignaturePad.jsx:77-84 | an active stroke ends and the current image is reported exactly once; when idle nothing is reported |
| `Signature.SignaturePad.ClearSignature` | src/components/SignaturePad.jsx:86-93 | the surface is emptied, the pad is unsigned with its placeholder showing, and `null` is reported |
| `Entry.Defaults` | src/components/SurveyForm.jsx:31-37 | the default form is today's date, HVO, and empty vehicle, quantity and signature |
| `Entry.DecideSubmit` | src/components/SurveyForm.jsx:44-58 | blocked exactly when vehicle or quantity is empty or the signature is missing; otherwise the record carries the form's date, type, vehicle and signature and the parsed quantity |
| `Entry.DefaultsBlocked` | src/components/SurveyForm.jsx:69-75 | a freshly reset form cannot be submitted |
| `Entry.SurveyForm.SubmitDisabled` | src/components/SurveyForm.jsx:176 | the button is disabled exactly while an append is outstanding, and then at least one record has been sent |
| `Entry.SurveyForm.PadKey` | src/components/SurveyForm.jsx:168 | the key is `reset` exactly in the success state and `active` otherwise, so each flip remounts the pad |
| `Entry.SurveyForm.constructor` | src/components/SurveyForm.jsx:30-39 | the form starts at its defaults, not submitting and without the success state |
| `Entry.SurveyForm.SetDate` | src/components/SurveyForm.jsx:107 | only the date changes |
| `Entry.SurveyForm.SetVehicle` | src/components/SurveyForm.jsx:130-142 | only the vehicle changes, to a roster entry |
| `Entry.SurveyForm.SetQuantity` | src/components/SurveyForm.jsx:158 | only the quantity changes |
| `Entry.SurveyForm.SetSignature` | src/components/SurveyForm.jsx:169 | only the signature changes |
| `Entry.SurveyForm.HandleSubmit` | src/components/SurveyForm.jsx:41-58 | an incomplete form changes nothing; a complete one appends its record and the form waits; the fuel type stays HVO and every record sent names a roster vehicle |
| `Entry.SurveyForm.AppendSettled` | src/components/SurveyForm.jsx:59-78 | failure keeps the form and does not turn the success state on; success resets the form to today's defaults, turns the success state on and remounts the pad if it was off; either way submitting ends |
| `Entry.SurveyForm.SuccessTimerFired` | src/components/SurveyForm.jsx:66 | the success state ends, and the pad is remounted exactly when the state was on |

## Findings

| source | as written | input that shows it | evidently intended | confidence | as-written member | corrected member |
|---|---|---|---|---|---|---|
| src/components/InvoiceGenerator.jsx:151 | `new jsPDF('p', 'mm', [210, pageHeight])`. A portrait page has its longer side upright, so a format less than 210 mm tall is swapped to `pageHeight` × 210 mm | a view 200 CSS px tall, rasterised to 1190 × 400: the image is about 60.5 mm tall, the page is about 90.5 mm wide, and the 180 mm image at x = 15 runs past its right edge (`Invoice.ShortCaptureOverflows` with 1190 and 400) | a page 210 mm wide and `pageHeight` tall whatever the height, e.g. by passing landscape when `pageHeight < 210` | medium: rests on the PDF library's orientation rule, which is not part of this model; not executed | `Invoice.MakePdfAsWritten` | `Invoice.MakePdf` |

## Left out

- The remote ledger client and the serverless forwarder are not part of this model. Each remote call is an entry in a log of issued requests plus a "settled" method that is told whether the call succeeded. The page calls `updateSurvey` and `deleteSurvey` on a client that defines only `appendSurvey` and `listSurveysByDate`; the model assumes those two calls exist.
- Listing failures, the loading and error views, refetching after invalidation and the query cache's eviction are library behaviour. The model keeps one listing per date, and a set of invalidated dates.
- The rasteriser, the canvas encoder and image loading are foreign code. They appear as parameters: the capture height, the encoded image and an encoder function. Canvas sizes are not rounded to whole pixels.
- The PDF library is not part of this model. Of it, the model keeps only its rule for page orientation (`Invoice.MakePage`), which the finding below rests on. Image scaling and the file download are not modelled.
- Invoice.InvoiceGenerator.ConfirmDelete: closing the dialog on confirm is the dialog component's own behaviour. That component library is not part of this model.
- The element style changes and their restoration around the capture only affect the DOM, so they are not modelled.
- The `setTimeout` delays are timing only. The success timer is a method of its own.
- Toast notifications are not modelled.
- Date formatting becomes a `today` parameter.
- Floating point is not modelled. This covers IEEE rounding, `NaN` (for which `quantity || 0` would also give 0), `toFixed(2)` display, and `parseFloat` on malformed text. `parseFloat` and `String(number)` are uninterpreted function parameters.
- `$` patterns in the replacement string of the proxy rewrite are not modelled.
- Invoice.InvoiceGenerator.FinishExport: a throw in the capture or the PDF step leaves the exporting flag set in the code. The model has no failure path for it.
- Signature.SignaturePad.constructor: the init effect runs again when `initialSignature` changes. That re-run clears the canvas but keeps `hasSignature`. It is not modelled, because no caller passes an initial signature.
- Signature.SignaturePad.ClearSignature: the cleared rectangle is taken to cover the whole surface. This holds as long as the surface has kept the size it had at mount.
- The drawing styles (colour, line width, caps) are not modelled. They do not affect the state.
- Authentication, layout and page components are constant stubs and rendering only.
