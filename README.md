# Farmer ID card maker: record logic in Dafny

This project models the record logic of a browser app. The app fills in a farmer ID card, previews it, gates the download behind a simulated payment, and exports the two card faces as a two-page, card-sized PDF. The model covers five parts:

- `Types.dfy`: the record shapes (`LandRecord`, `FarmerData`, the four-state `PaymentStatus`). It also holds `Partial<FarmerData>` as `Patch`, with field-generic access (`Get`, `Entry`).
- `IdCardForm.dfy`: the form's handlers, as pure functions from the current record to the partial update they pass to `onChange`. These cover adding, removing and updating land records, the digit-only inputs, and the photo.
- `IdCardPreview.dfy`: the card preview as a view model. It holds the placeholder fallbacks, the QR payload, the three-row land table, the record-count badge and the photo slot.
- `PdfGenerator.dfy`: the file-name sanitisation, and the export as a method that builds the page list. The foreign library calls are abstract, and which call throws is an input.
- `App.dfy`: the session controller, as a class over the record, the payment status, the dialog flag and the `isGenerating` flag. Beside it are the pure helpers: the merge, ID generation, the required-field gate and the visible controls.

Inputs from the environment become parameters:

- `Math.random()` is `u`, a real in [0, 1).
- `confirm()` is `confirmed`.
- Whether the preview element is mounted is `mounted`.
- The first library call to throw during export is `failAt`.

The file-name pattern `/[^a-z0-9]/gi` has no `+`, so each character that is not an ASCII letter or digit becomes its own `_` (`SafeNameKeepsRuns`: "Rahul Kumar!!" gives "Rahul_Kumar__"). The file name ends in `.pdf`.

## Model

| member | source | states |
|---|---|---|
| Types.SameFields | src/types.ts:9-20 | two records that agree on every key are the same record (so key-wise statements determine a record) |
| IdCardForm.AddLandRecord | src/components/IDCardForm.tsx:23-27 | one record longer; the old records keep their positions; the new last record has all four fields empty |
| IdCardForm.KeepOtherPositionsIsSplice | src/components/IDCardForm.tsx:31 | the index filter keeps everything except position `index` when that position exists, and keeps everything when it does not (negative or too large) |
| IdCardForm.RemoveLandRecord | src/components/IDCardForm.tsx:29-34 | refused (no update) exactly when at most one record is left; otherwise one shorter, earlier records in place, later ones shifted down by one; an out-of-range index leaves the list as is; the result is never empty |
| IdCardForm.RemoveControlMeansRemoval | src/components/IDCardForm.tsx:177-184 | the trash button is offered exactly when removal is accepted, and then the list drops by one and keeps at least one record |
| IdCardForm.WithLandField | src/components/IDCardForm.tsx:39 | the chosen field takes the new value; the other three fields are unchanged |
| IdCardForm.UpdateLandRecord | src/components/IDCardForm.tsx:36-44 | same length; every other position unchanged; at `index` only the chosen field changes, to the value; an out-of-range index changes nothing |
| IdCardForm.DigitsOnly | src/components/IDCardForm.tsx:128 | the result is all ASCII digits and no longer than the input |
| IdCardForm.DigitsOnlyConcat | src/components/IDCardForm.tsx:128 | the filter distributes over concatenation, so the kept digits stay in their original order |
| IdCardForm.DigitsOnlyKeepsDigits | src/components/IDCardForm.tsx:141 | a string of digits passes through unchanged |
| IdCardForm.DigitsOnlyIdempotent | src/components/IDCardForm.tsx:241 | filtering twice equals filtering once |
| IdCardForm.DigitsOnlyCounts | src/components/IDCardForm.tsx:128 | each digit is kept as often as it occurs in the input; no other character is kept |
| IdCardForm.OnFormEvent | src/components/IDCardForm.tsx:12-241 | every form event yields an update of exactly the one key it edits, except a refused removal, which yields none; the two names, date of birth, gender and address carry the typed text verbatim; WhatsApp, Aadhaar and farmer ID carry its digits only; a finished photo read carries the data URL and a failed read carries a null photo; ADD MORE carries the list with a blank record appended, a removal the list without that position, a land-field edit the list with that one field of that one record replaced; a non-empty land list stays non-empty |
| IdCardPreview.PhotoSlotOf | src/components/IDCardPreview.tsx:100-104 | the picture is shown exactly when the photo is neither null nor empty; otherwise the caption "Photo" is shown |
| IdCardPreview.QrPayloadRoundTrip | src/components/IDCardPreview.tsx:148 | the payload `FARMER:<id>\|AADHAR:<aadhaar>` reads back to the farmer ID and the Aadhaar number whenever the ID has no `\|` |
| IdCardPreview.RowOf | src/components/IDCardPreview.tsx:226-229 | each cell shows its field, or `-` when the field is empty |
| IdCardPreview.TableRows | src/components/IDCardPreview.tsx:224 | min(3, n) rows, which are the first records in order |
| IdCardPreview.TableIgnoresLaterRecords | src/components/IDCardPreview.tsx:211-224 | records beyond the third never change the table (only the badge counts them) |
| IdCardPreview.FrontOf | src/components/IDCardPreview.tsx:90-159 | the farmer ID is verbatim in the header badge and the footer; the name, Marathi name, address, mobile and Aadhaar slots each show the data, or their fixed placeholder when empty, and so are never blank; the QR payload combines ID and Aadhaar; the photo slot follows PhotoSlotOf |
| IdCardPreview.BackOf | src/components/IDCardPreview.tsx:195-229 | the farmer ID is verbatim in the header; the address shows the back-face placeholder when empty; the badge shows the total record count, not the rows shown; the table shows the first min(3, n) records |
| IdCardPreview.Render | src/components/IDCardPreview.tsx:21-171 | the rendered preview always holds both faces, front and back, built from the same record |
| PdfGenerator.SafeName | src/utils/pdfGenerator.ts:64 | only ASCII letters, digits and `_`; an empty name gives "Farmer"; otherwise the same length, with letters (either case) and digits kept in place and every other character replaced by one `_` |
| PdfGenerator.SafeNameIdempotent | src/utils/pdfGenerator.ts:64 | sanitising a sanitised name returns it unchanged |
| PdfGenerator.SafeNameKeepsRuns | src/utils/pdfGenerator.ts:64 | "Rahul Kumar!!" becomes "Rahul_Kumar__": runs are not collapsed |
| PdfGenerator.FileName | src/utils/pdfGenerator.ts:65 | the name is "AgroStack_UHD_", then the safe name, then ".pdf"; the safe name is recoverable from between prefix and suffix |
| PdfGenerator.DrawOnLastPage | src/utils/pdfGenerator.ts:56-61 | drawing adds the image to the current (last) page only; the earlier pages are unchanged |
| PdfGenerator.GeneratePdf | src/utils/pdfGenerator.ts:9-73 | a missing front or back face gives false with no library call and no document; otherwise the result is true exactly when no call throws; a failure stops the calls at the throwing one and saves nothing; on success the saved document has exactly two pages in the card format, front snapshot on page 1 and back snapshot on page 2, under FileName |
| App.InitialDataShape | src/App.tsx:10-21 | the initial record has exactly one land record with all fields empty, no photo and gender "Male" |
| App.MergeFields | src/App.tsx:52-54 | after a merge, every key present in the update has the update's value and every other key keeps its old value |
| App.MergeEmpty | src/App.tsx:52-54 | merging an empty update changes nothing |
| App.MergeIdempotent | src/App.tsx:52-54 | merging the same update twice equals merging it once |
| App.ThenEntries | src/App.tsx:53 | in a combined update, the later update's keys win and the earlier update fills the rest |
| App.MergeThen | src/App.tsx:52-54 | two successive merges equal one merge of the combined update |
| App.FormEventKeepsLandRecords | src/components/IDCardForm.tsx:29-34 | no single form event, merged into the record, empties a non-empty land list |
| App.FormEventsKeepLandRecords | src/components/IDCardForm.tsx:30 | no sequence of form events empties a non-empty land list |
| App.RandomSuffix | src/App.tsx:48 | the random number lies in [1000000, 9999999] for every draw in [0, 1) |
| App.DecimalString | src/App.tsx:48 | a number is written as a non-empty string of digits |
| App.ParseDecimalString | src/App.tsx:48 | reading the written digits back gives the number |
| App.DecimalStringLength | src/App.tsx:48 | a k-digit number is written with exactly k characters |
| App.NewFarmerIdFormat | src/App.tsx:47-50 | every issued ID is "300" followed by seven digits (10 characters); it passes the form's digit filter unchanged; the QR payload built from it and any Aadhaar number reads back as exactly that ID and that Aadhaar number |
| App.FarmerIdInjective | src/App.tsx:48 | different random numbers give different IDs |
| App.InitialDataNotReady | src/App.tsx:65-71 | a fresh or reset record never passes the payment gate |
| App.ControlsFor | src/App.tsx:190-258 | the pay button shows exactly while the status is not SUCCESS; the download button shows exactly on SUCCESS; the download button is enabled and the save link shown exactly on SUCCESS while no export runs; the preview is locked until SUCCESS; the dialog follows `showPayment` |
| App.Session.constructor | src/App.tsx:37-45 | the session starts from the initial record with a freshly issued ID, an IDLE gate, no dialog and no export running |
| App.Session.GenerateNewId | src/App.tsx:47-50 | only the farmer ID changes, to a well-formed issued ID; a valid session (non-empty land list, gate IDLE or SUCCESS) stays valid |
| App.Session.HandleDataChange | src/App.tsx:52-54 | the record becomes the merge; keys absent from the update are unchanged; the rest of the state is unchanged |
| App.Session.HandleFormEvent | src/App.tsx:178 | a form event's update is merged; the land list stays non-empty and the gate stays IDLE or SUCCESS |
| App.Session.HandleReset | src/App.tsx:56-63 | when confirmed, the record is the initial one with a new ID and the gate is IDLE; when not confirmed, nothing changes; a valid session (non-empty land list, gate IDLE or SUCCESS) stays valid |
| App.Session.HandleInitiatePayment | src/App.tsx:65-71 | the alert is raised exactly when the English name, Aadhaar or WhatsApp is empty, or the photo is null or empty; then nothing changes; otherwise the payment dialog opens; a valid session (non-empty land list, gate IDLE or SUCCESS) stays valid |
| App.Session.HandlePaymentCancel | src/App.tsx:304 | the dialog closes; nothing else changes; a valid session (non-empty land list, gate IDLE or SUCCESS) stays valid |
| App.Session.HandlePaymentComplete | src/App.tsx:83-88 | the status becomes SUCCESS, the dialog closes, and the download button appears; a valid session (non-empty land list, gate IDLE or SUCCESS) stays valid |
| App.Session.BeginDownload | src/App.tsx:73-75 | nothing happens without a mounted preview; otherwise `isGenerating` is raised, and the download button is disabled and the save link hidden; a valid session (non-empty land list, gate IDLE or SUCCESS) stays valid |
| App.Session.EndDownload | src/App.tsx:78-80 | `isGenerating` is lowered; a valid session (non-empty land list, gate IDLE or SUCCESS) stays valid |
| App.Session.StartDownload | src/App.tsx:73-81 | without a mounted preview nothing changes and nothing is exported; otherwise the rendered preview is exported under the English name, the result is true exactly when no library call throws, a success saves the two-page document of this record's faces, and `isGenerating` ends false whatever the outcome; a valid session (non-empty land list, gate IDLE or SUCCESS) stays valid |

## Left out

- Rasterisation (html2canvas), PDF construction (jsPDF), JPEG encoding, the 4.5 scale, the 648×408 capture size and the clone fix-up: foreign library calls. A captured face is the abstract `Snapshot(face)`, and a page is the list of images drawn on it.
- Millimetre geometry: the page format is a constant in tenths of a millimetre (856 × 540, landscape). The image placement (0, 0, 85.6, 54) is not modelled.
- PdfGenerator.GeneratePdf: the `console` messages and the `alert` on failure are not modelled. Only the boolean result, the saved document and the calls made are.
- Layout, CSS classes, SVG artwork, background images, the lamination effect and QR image generation: presentation only. Only the QR payload string is modelled.
- The demo card built from `SAMPLE_DATA`: a fixed demo, not part of the record logic.
- FileReader photo loading: asynchronous browser I/O. Its `onloadend` outcome arrives as a form event: `PhotoLoaded` with the data URL, or `PhotoReadFailed` when the read fails and the result is null, which clears the photo.
- The payment dialog's own timer and loading flag (src/components/PaymentGateway.tsx): a timed modal whose only effect is to call the completion handler, which `Session.HandlePaymentComplete` models.
- `Session.HandlePaymentComplete`: does not model the 800 ms timer that then calls `startDownload`. That callback is `Session.StartDownload`, called separately. The timer path does not check `isGenerating`.
- Async interleaving: `BeginDownload` and `EndDownload` model the two halves of `startDownload` around its one `await`. The model does not cover events that arrive in between.
- `confirm`, `alert`, `window.scrollTo` and `Math.random`: UI and randomness. They are parameters (`confirmed`, `u`) or an out-parameter (`alerted`).
- Floating point: `RandomSuffix` uses exact real arithmetic, not IEEE doubles.
- The `maxLength` attributes on the WhatsApp, Aadhaar and farmer-ID inputs: the browser enforces them, not the code. No length bound is claimed.
- UTF-16: JavaScript strings are sequences of UTF-16 code units, while a Dafny `char` is a Unicode scalar value. A character outside the Basic Multilingual Plane becomes two `_` in the source's file name but one `_` in `SafeName`. The digit filter drops it either way.
