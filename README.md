# Signature annotations of a PDF-signing client, in Dafny

This project models the signature-annotation handling of a React client for
signing PDF documents. The model covers these parts:

- **Owner's document view** (`DocView`): the list of placed signatures. Signatures are added on the current page, merged with new fields by id, and deleted by id. Only those on the current page are shown. Prev/next navigation is clamped to the document. Saving posts one payload per signature and stops at the first failure. Finalizing caches the returned PDF for a later download.
- **Guest's shared document view** (`SharedDocView`): the same list, reached through a share token. An empty list is refused before any request. Finalizing posts every signature with guest metadata, then makes one finalize call that carries the first signature. A failed token lookup leaves the view on the expired-link screen.
- **Signature box** (`SignatureBox`): the editor state machine. Starting values fall back to defaults on falsy props. It has a drag protocol of grab offset, follow and release, an editor-panel toggle, and fixed option sets. Each change to the nine persisted fields is reported to the owner.
- **Single-signature guest pages** (`SharedDoc`, `SharedSignPage`): field-by-field edits, `parseInt(..) || fallback` coercion, finalize payloads (the second page always sends page 1) and the flags that hide the submit control.
- **Dashboard** (`Dashboard`): case-insensitive substring search over name and status, delete-then-refilter, and the signed/pending counters.
- **Status badge** (`StatusBadge`): the colour lookup and the capitalised label.

Shared pure modules:

- `Seqs`: an order-preserving `Filter` and subsequences.
- `Strings`: ASCII lower-casing and substring search.
- `Common` and `Coercion`: options, toasts and JavaScript's `||` fallback on falsy values.
- `Annotations`: the signature record, the spread-merge `{ ...sig, ...newData }`, the list operations, the page clamps and the document URL.
- `Persistence`: the wire payload and the sequential posting loop.

Each page's React state is a `class State`, and each handler is a method with a `modifies` frame. The network, the clock, `Date.now()` ids, `navigator.userAgent` and the cursor are parameters:

- A single request is an `Option` (or a `bool`) that stands for its answer.
- A sequence of requests is an oracle `ok: nat -> bool` that gives the answer to request `i`.
- Timestamps are `stamps: nat -> string`.

Ids are not assumed unique: update and delete act on every record that carries the id.

## Model

| member | source | states |
|---|---|---|
| Seqs.Filter | src/pages/DocView.jsx:69-71 | `Array.prototype.filter`: the result holds only kept elements, in their original order (a subsequence), each kept element with as many copies as the input has, and nothing the input lacks |
| Seqs.SubsequenceReflexive | src/pages/Dashboard.jsx:19-20 | a list is a subsequence of itself, so setting `docs` and `filteredDocs` to the same list keeps the dashboard invariant |
| Seqs.FilterAppend | src/pages/DocView.jsx:169-171 | filtering distributes over concatenation |
| Seqs.FilterKeepsAll | src/pages/DocView.jsx:69-71 | a filter that keeps every element returns the list unchanged |
| Seqs.FilterIdempotent | src/pages/DocView.jsx:69-71 | filtering twice with the same predicate equals filtering once |
| Seqs.FilterCongruent | src/pages/Dashboard.jsx:33-36 | filters with predicates that agree on the list give the same result |
| Seqs.DisjointFiltersBounded | src/pages/Dashboard.jsx:54-56 | two filters that never both keep an element keep at most the list's length together |
| Strings.ToLower | src/pages/Dashboard.jsx:30 | `toLowerCase` keeps the length and lower-cases each character |
| Strings.ToLowerOfLower | src/components/StatusBadge.jsx:9-11 | a string with no upper-case letter is its own lower-case form |
| Strings.ToLowerIdempotent | src/pages/Dashboard.jsx:30-31 | lower-casing twice equals lower-casing once |
| Strings.ToLowerAppend | src/components/StatusBadge.jsx:15 | lower-casing distributes over concatenation |
| Strings.OccursInTail | src/pages/Dashboard.jsx:33-34 | a needle that does not start the text occurs in it exactly when it occurs in its tail |
| Strings.Includes | src/pages/Dashboard.jsx:33-34 | `includes` is true exactly when the needle occurs at some position |
| Strings.IncludesEmpty | src/pages/Dashboard.jsx:33-36 | every string includes the empty string |
| Coercion.NumberOr | src/pages/SharedDoc.jsx:102 | a number or its fallback: the fallback for 0 or NaN, otherwise the number itself |
| Coercion.StringOr | src/pages/DocView.jsx:15 | a string or its fallback: the fallback for an empty or missing string, otherwise the string itself |
| Coercion.BoolOrFalse | src/components/SignatureBox.jsx:24 | a flag or false: true only for a given `true` |
| Annotations.Merge | src/pages/DocView.jsx:66 | the spread-merge never changes a record's id or page |
| Annotations.MergeSnapshot | src/pages/SharedSignPage.jsx:124 | merging a box's full snapshot makes the nine fields equal the snapshot, keeping id and page |
| Annotations.MergePosition | src/pages/DocView.jsx:138 | merging `{ x, y }` changes only x and y |
| Annotations.MergeIdempotent | src/pages/DocView.jsx:66 | merging the same fields twice equals merging once |
| Annotations.UpdateAll | src/pages/DocView.jsx:65-67 | updateSignature keeps length and order, merges the new keys into every record with the id, and leaves every other record identical |
| Annotations.UpdateAbsent | src/pages/DocView.jsx:65-67 | an update for an id no record carries leaves the list unchanged |
| Annotations.UpdateKeepsIdsAndPages | src/pages/DocView.jsx:65-67 | an update never changes any record's id or page |
| Annotations.UpdateIdempotent | src/pages/DocView.jsx:65-67 | applying the same update twice equals applying it once |
| Annotations.ForPage | src/pages/DocView.jsx:169-171 | the rendered boxes are exactly the records on the current page, in insertion order, duplicates included |
| Annotations.WithoutId | src/pages/DocView.jsx:69-71 | deleteSignature removes every record with the id and keeps every other, in order, with all its copies |
| Annotations.DeleteIdempotent | src/pages/DocView.jsx:69-71 | deleting the same id twice equals deleting it once |
| Annotations.DeleteAbsent | src/pages/SharedDocView.jsx:165-167 | deleting an id no record carries leaves the list unchanged |
| Annotations.AppendThenForPage | src/pages/DocView.jsx:46-63 | a new record shows on its page after the earlier ones, and no other page's view changes |
| Annotations.NewSignature | src/pages/DocView.jsx:47-61 | the appended record carries the given id, page and text, at (100, 100), 16px normal Arial black without underline |
| Annotations.UpdateThenForPage | src/pages/DocView.jsx:65-67 | updating then filtering by page equals filtering by page then updating: an update never moves a record between pages |
| Annotations.PrevPage | src/pages/DocView.jsx:141 | `Math.max(1, prev - 1)`: never below 1, one back otherwise |
| Annotations.NextPage | src/pages/DocView.jsx:142 | `Math.min(numPages, prev + 1)`: never past the last page, one on otherwise |
| Annotations.NavigationInRange | src/pages/DocView.jsx:141-142 | from a page in `[1, numPages]`, prev and next stay in range; prev at 1 stays 1 and next at the end stays there |
| Annotations.PrevRepeated | src/pages/SharedDocView.jsx:126 | k presses of prev land on `max(1, page - k)` |
| Annotations.NextRepeated | src/pages/SharedDocView.jsx:127 | k presses of next land on `min(numPages, page + k)` |
| Annotations.NormalizeSlashes | src/pages/DocView.jsx:34 | `replace(/\\/g, '/')`: same length, every backslash becomes '/', every other character is kept, no backslash remains |
| Annotations.NormalizeIdempotent | src/pages/DocView.jsx:34 | normalising twice equals normalising once |
| Annotations.DocumentUrl | src/pages/DocView.jsx:34 | the URL is the base, a '/', then the normalised path, which holds no backslash |
| Persistence.FirstFailure | src/pages/DocView.jsx:75-91 | the index of the first failing request: all before it succeed, it fails unless it is past the end |
| Persistence.PayloadOf | src/pages/DocView.jsx:76-90 | the payload for a record carries the document id, status 'signed', no image, and the record's page and nine fields |
| Persistence.PostAll | src/pages/DocView.jsx:75-91 | one payload per record, in list order, each with the document id, status 'signed', no image and the record's fields; a failing request ends the loop, so requests up to the first failure are sent and none after; all succeed exactly when every answer is ok |
| DocView.State.constructor | src/pages/DocView.jsx:15-27 | the base URL falls back to the hosted server when the environment variable is unset or empty; the view starts loading on page 1 of 1 with no signatures and no blob |
| DocView.State.FetchDocument | src/pages/DocView.jsx:30-44 | a found path sets the normalised URL; a failed request or a missing path shows the load error; loading ends either way |
| DocView.State.OnLoadSuccess | src/pages/DocView.jsx:162 | the page count comes from the renderer |
| DocView.State.Rendered | src/pages/DocView.jsx:158-239 | the loader while loading, then the viewer exactly when a document URL is known |
| DocView.State.AddSignature | src/pages/DocView.jsx:46-63 | appends exactly one record at the end, on the current page, with the 'Add Signature' defaults; earlier records are untouched |
| DocView.State.UpdateSignature | src/pages/DocView.jsx:65-67 | the list becomes its id-wise merge with the new keys |
| DocView.State.DeleteSignature | src/pages/DocView.jsx:69-71 | the list loses every record with the id |
| DocView.State.Visible | src/pages/DocView.jsx:169-171 | the boxes shown are the current page's records in list order, duplicates included |
| DocView.State.HandleSaveSignature | src/pages/DocView.jsx:73-98 | the posts are the records' payloads in order; the success toast shows exactly when all posts succeeded, otherwise the error toast shows after the first failing post |
| DocView.State.HandleFinalizePdf | src/pages/DocView.jsx:100-115 | a returned PDF is cached with the success toast; a failure keeps the old blob and shows the error toast |
| DocView.State.HandleDownload | src/pages/DocView.jsx:117-128 | nothing is downloaded without a cached blob; otherwise exactly that blob, named `signed_<id>.pdf` |
| DocView.State.HandleDragEnd | src/pages/DocView.jsx:130-139 | without a container nothing changes; otherwise every record with the id gets x = clientX − left and y = clientY − top, and nothing else changes |
| DocView.State.GoToPrevPage | src/pages/DocView.jsx:141 | the page becomes the clamped previous page and stays within the document |
| DocView.State.GoToNextPage | src/pages/DocView.jsx:142 | the page becomes the clamped next page and never passes `numPages` |
| SharedDocView.State.constructor | src/pages/SharedDocView.jsx:21-28 | the shared view starts loading, unused, on page 1 of 1 with no signatures |
| SharedDocView.State.FetchSharedDoc | src/pages/SharedDocView.jsx:30-47 | the document id is stored before the path is read; a found path sets the URL; a failed request or a missing path sets `isUsed` with the error toast, and only the expired-link screen renders |
| SharedDocView.State.Rendered | src/pages/SharedDocView.jsx:129-138 | the loader while loading, then the expired-link screen exactly when the link is used, else the viewer |
| SharedDocView.State.OnLoadSuccess | src/pages/SharedDocView.jsx:150 | the page count comes from the renderer |
| SharedDocView.State.AddSignature | src/pages/SharedDocView.jsx:49-66 | appends one record on the current page with the 'Signature' defaults |
| SharedDocView.State.UpdateSignature | src/pages/SharedDocView.jsx:68-72 | the list becomes its id-wise merge with the new keys |
| SharedDocView.State.DeleteSignature | src/pages/SharedDocView.jsx:165-167 | the inline delete removes every record with the id |
| SharedDocView.State.Visible | src/pages/SharedDocView.jsx:157-159 | the boxes shown are the current page's records in list order, duplicates included |
| SharedDocView.State.HandleDragEnd | src/pages/SharedDocView.jsx:74-83 | without a container nothing changes; otherwise only x and y of the records with the id change |
| SharedDocView.State.HandleFinalize | src/pages/SharedDocView.jsx:85-124 | an empty list gives the warning and no request; otherwise one guest payload per record in order; the finalize call, carrying the first record, is made exactly when every post succeeded; success toasts and redirects to '/', any failure shows the error toast and does not redirect |
| SharedDocView.State.GoToPrevPage | src/pages/SharedDocView.jsx:126 | the page becomes the clamped previous page |
| SharedDocView.State.GoToNextPage | src/pages/SharedDocView.jsx:127 | the page becomes the clamped next page, never past `numPages` |
| SignatureBox.MountedFromRecord | src/components/SignatureBox.jsx:17-26 | a box mounted from a record with no falsy field starts with exactly that record's nine fields |
| SignatureBox.ZeroReplaced | src/components/SignatureBox.jsx:17-21 | an explicit 0 for x, y or fontSize, or an empty text, is replaced by its default |
| SignatureBox.DefaultsWithoutProps | src/components/SignatureBox.jsx:17-26 | with no props the box starts at (100, 100) with 'Signature', 20, normal, normal, no underline, Arial, black |
| SignatureBox.InitialSnapshot | src/components/SignatureBox.jsx:17-26 | every starting number and string is truthy: for each of the nine fields a falsy or missing prop gives its default and a truthy one is kept; underline is true only for an explicit true |
| SignatureBox.State.constructor | src/components/SignatureBox.jsx:17-30 | the state starts from the props with their defaults, the editor closed, not dragging, zero offset, no shadow, the translucent green background; the update effect reports the initial snapshot once |
| SignatureBox.State.Notify | src/components/SignatureBox.jsx:70-84 | onUpdate, when it is a function, receives the nine persisted fields whenever one of them changed |
| SignatureBox.State.ToggleEditor | src/components/SignatureBox.jsx:32 | the editor panel flips open or closed |
| SignatureBox.State.CloseEditor | src/components/SignatureBox.jsx:236 | Close always closes the panel |
| SignatureBox.State.HandleMouseDown | src/components/SignatureBox.jsx:34-41 | the offset is the cursor minus the box position, and dragging starts |
| SignatureBox.State.HandleMouseMove | src/components/SignatureBox.jsx:50-57 | while not dragging nothing changes; while dragging the position is cursor minus offset, and the owner is told of the change |
| SignatureBox.State.HandleMouseUp | src/components/SignatureBox.jsx:43-48 | dragging stops; onDragEnd is called exactly when it is a function |
| SignatureBox.State.SetText | src/components/SignatureBox.jsx:128 | the text changes and the owner receives the new snapshot |
| SignatureBox.State.SetFontSize | src/components/SignatureBox.jsx:138 | the font size changes and the owner receives the new snapshot |
| SignatureBox.State.SelectFontFamily | src/components/SignatureBox.jsx:145-165 | the family is one of the nine offered names, and the owner is told |
| SignatureBox.State.SelectFontWeight | src/components/SignatureBox.jsx:171-180 | the weight is one of the four offered values, and the owner is told |
| SignatureBox.State.SelectFontStyle | src/components/SignatureBox.jsx:185-193 | the style is one of the three offered values, and the owner is told |
| SignatureBox.State.SetUnderline | src/components/SignatureBox.jsx:201 | the underline flag changes and the owner is told |
| SignatureBox.State.SetColor | src/components/SignatureBox.jsx:219 | the colour changes and the owner is told |
| SignatureBox.State.SetTextShadow | src/components/SignatureBox.jsx:210 | the shadow is display-only: the reported fields do not change |
| SignatureBox.State.SetBgColor | src/components/SignatureBox.jsx:229 | the background is display-only: the reported fields do not change |
| SignatureBox.State.Delete | src/components/SignatureBox.jsx:243 | onDelete is called exactly when provided; the box's own state is untouched |
| SignatureBox.DragFollowsCursor | src/components/SignatureBox.jsx:34-57 | grab then move shifts the box by the cursor's displacement; of the nine reported fields only x and y change |
| SignatureBox.DragBackRestores | src/components/SignatureBox.jsx:34-57 | moving back to the grab point restores the position and reports nothing new |
| SignatureBox.ToggleTwice | src/components/SignatureBox.jsx:32 | toggling twice restores the panel's state |
| Dashboard.Search | src/pages/Dashboard.jsx:29-38 | the shown documents are exactly those whose lower-cased name or status contains the term, in original order, duplicates included |
| Dashboard.EmptySearchKeepsNamed | src/pages/Dashboard.jsx:33-36 | an empty term keeps exactly the documents with a name or a status |
| Dashboard.NameFoundInAnyCase | src/pages/Dashboard.jsx:30-34 | typing a document's name in any case finds it |
| Dashboard.SignedPlusPendingBounded | src/pages/Dashboard.jsx:54-56 | signed + pending never exceeds the total |
| Dashboard.CountStatus | src/pages/Dashboard.jsx:55-56 | a status count is at most the number of documents and is zero exactly when no document has that status |
| Dashboard.State.Total | src/pages/Dashboard.jsx:54 | the signed and pending counters together never exceed the total |
| Dashboard.State.Signed | src/pages/Dashboard.jsx:55 | zero exactly when no document is signed |
| Dashboard.State.Pending | src/pages/Dashboard.jsx:56 | zero exactly when no document is pending |
| Dashboard.State.constructor | src/pages/Dashboard.jsx:10-14 | the dashboard starts loading with no documents and an empty term |
| Dashboard.State.FetchDocuments | src/pages/Dashboard.jsx:16-27 | a fetched list becomes both `docs` and `filteredDocs`; a failure shows the error toast; loading ends |
| Dashboard.State.HandleSearch | src/pages/Dashboard.jsx:29-38 | the stored term is the lower-cased input and the shown list is its search result, a subsequence of `docs` |
| Dashboard.State.HandleDelete | src/pages/Dashboard.jsx:40-48 | every document with the id is removed and no other; the shown list is re-filtered with the stored term |
| StatusBadge.ColorClassAsWritten | src/components/StatusBadge.jsx:11 | the lookup as written falls back to gray exactly for statuses whose lower-case form is none of pending, signed, rejected, constructor and __proto__ |
| StatusBadge.AsWrittenAgreesElsewhere | src/components/StatusBadge.jsx:11 | away from the inherited property names, the lookup as written and the corrected lookup give the same class |
| StatusBadge.ConstructorStatusMissesFallback | src/components/StatusBadge.jsx:11 | as written, the status "constructor" gets the Object function's text as its class list, not the fallback |
| StatusBadge.ColorClass | src/components/StatusBadge.jsx:3-11 | pending, signed and rejected (in any case) get their own classes, and every other status gets the gray fallback |
| StatusBadge.ColorClassIgnoresCase | src/components/StatusBadge.jsx:11 | 'Signed' and 'SIGNED' get the class of 'signed' |
| StatusBadge.Label | src/components/StatusBadge.jsx:15 | the label is the status with its first character upper-cased and the rest unchanged |
| StatusBadge.LowerOfUpper | src/components/StatusBadge.jsx:15 | upper-casing then lower-casing a character equals lower-casing it |
| StatusBadge.LabelKeepsColor | src/components/StatusBadge.jsx:11-15 | the capitalised label would get the same colour as the status |
| StatusBadge.Render | src/components/StatusBadge.jsx:9-16 | the badge with the corrected colour lookup: a missing status renders as 'Pending' in yellow, an empty status gives an empty label and the fallback, and away from the inherited property names the class is the one the component as written gives |
| SharedDoc.State.constructor | src/pages/SharedDoc.jsx:16-29 | the form starts at (100, 100), page 1, 'Signed by guest', 16, black, with no file, no error and not finalized |
| SharedDoc.State.FormVisible | src/pages/SharedDoc.jsx:70-88 | the form shows exactly when a file URL is known, there is no error, and the document is not yet finalized |
| SharedDoc.State.VerifyToken | src/pages/SharedDoc.jsx:33-45 | a failed request sets "Invalid or expired link"; a missing or empty path sets "No file found"; otherwise the normalised file URL is set |
| SharedDoc.State.OnLoadSuccess | src/pages/SharedDoc.jsx:75 | the page count comes from the renderer |
| SharedDoc.State.SetText | src/pages/SharedDoc.jsx:94 | only the text changes |
| SharedDoc.State.SetPage | src/pages/SharedDoc.jsx:101-105 | only the page changes, to the parsed number with 1 for a falsy one, so NaN or 0 gives 1 |
| SharedDoc.State.SetX | src/pages/SharedDoc.jsx:113 | only x changes, to the parsed number with 0 for NaN |
| SharedDoc.State.SetY | src/pages/SharedDoc.jsx:122 | only y changes, to the parsed number with 0 for NaN |
| SharedDoc.State.SetColor | src/pages/SharedDoc.jsx:130 | only the colour changes |
| SharedDoc.State.HandleFinalize | src/pages/SharedDoc.jsx:51-61 | the whole form is sent; success sets `finalized`, which hides the form, and redirects; failure shows the error toast and leaves `finalized` as it was |
| SharedDoc.PageNotClamped | src/pages/SharedDoc.jsx:101-107 | a page number beyond the document is accepted as typed |
| SharedSignPage.DetailsOf | src/pages/SharedSignPage.jsx:56-71 | the finalize details copy the record's nine fields, always say page 1, carry ipAddress 'auto', and carry the given userAgent and timestamp unchanged |
| SharedSignPage.DetailsIgnorePage | src/pages/SharedSignPage.jsx:60 | the record's own page never reaches the details |
| SharedSignPage.DefaultSignature | src/pages/SharedSignPage.jsx:84-96 | the recipient default carries the given id on page 1, at (100, 100), 'Signed by Recipient' in 18px bold italic Cursive black without underline |
| SharedSignPage.State.constructor | src/pages/SharedSignPage.jsx:15-20 | the page starts loading, with no URL, no signature and not signed |
| SharedSignPage.State.Rendered | src/pages/SharedSignPage.jsx:112-151 | the loader while loading, then the viewer exactly when a URL is known, else the invalid-link notice |
| SharedSignPage.State.AddOffered | src/pages/SharedSignPage.jsx:131-138 | the add button is offered exactly when there is no signature, so it is never offered together with the finalize button |
| SharedSignPage.State.FinalizeOffered | src/pages/SharedSignPage.jsx:140-147 | finalize is offered exactly when a signature exists and signing has not yet succeeded |
| SharedSignPage.State.FetchSharedDoc | src/pages/SharedSignPage.jsx:22-37 | a found path sets the URL and shows the viewer; a failed request or a missing path shows the toast, leaves the URL empty and shows the invalid-link notice; loading ends either way |
| SharedSignPage.State.AddSignature | src/pages/SharedSignPage.jsx:84-96 | the record becomes the recipient default, and the add button is no longer offered |
| SharedSignPage.State.HandleDragEnd | src/pages/SharedSignPage.jsx:39-52 | without a container nothing changes; otherwise only x and y change |
| SharedSignPage.State.OnUpdate | src/pages/SharedSignPage.jsx:124 | the box's snapshot replaces the nine fields; id and page stay |
| SharedSignPage.State.HandleFinalize | src/pages/SharedSignPage.jsx:54-82 | with a signature, its details are sent; success sets `signed`, which hides the finalize button, and redirects; failure leaves `signed`; without a signature no request is made and the failure toast shows |
| SharedSignPage.AddDragFinalize | src/pages/SharedSignPage.jsx:39-96 | with the drag end given the cursor and container explicitly, add, drag and finalize send exactly the details of the recipient default moved to the dropped position, on page 1 |

## Left out

- Rendering, CSS classes, responsive widths and the react-pdf renderer are not modelled. The page count reaches the model only through each `OnLoadSuccess`, with `numPages >= 1`.
- The axios instance in src/utils/api.js, with its token header and 401 redirect, is not part of this model. Each request is reduced to its success or failure (and, where used, its returned data).
- `Date.now()` ids, ISO timestamps, `navigator.userAgent`, the 2-second `setTimeout` navigation and the Blob/object-URL download are parameters or recorded intentions (`redirect`, `Download`); no timer or browser API is modelled.
- React's effect scheduling is not modelled. The box's update effect is taken to run after each change to one of its nine fields (`SignatureBox.State.Notify`). Batched renders that coalesce several changes into one report are not distinguished.
- Cursor coordinates and page offsets are integers; browser coordinates are floating point.
- `SignatureBox.State.SetFontSize` takes the number `Number(value)` produced; a NaN from a non-numeric input is not modelled.
- Strings.ToLower, Strings.UpperChar and StatusBadge.Label map ASCII letters only; JavaScript's full Unicode case mapping is not modelled ("ß".toUpperCase() is "SS", so the label's length can differ from the status's in JavaScript).
- A `null` status given to the badge (which would throw) is not modelled; only a missing (undefined) or present string is.
- A `filePath` that is present but not a string is not modelled; a path is either a string or missing.
- `SharedSignPage.State.OnUpdate`: the source merges into the signature captured at render time, which can be stale. The model merges into the current signature.
- `SignatureBox` calls `onDragEnd()` with no event, while the pages' `handleDragEnd` read the event's target and cursor position. The box's drag end is therefore not connected to the pages' handlers. Those handlers take the container origin and cursor as explicit inputs, and the box's call is recorded as a count in `dragEnds`.
- SharedSignPage.State.FetchSharedDoc: requires `loading`, since the lookup runs when the page mounts; a token change on the mounted page re-runs it without resetting `loading`, which is not modelled.
- `SharedSignPage.State.HandleDragEnd` and `SharedSignPage.State.OnUpdate` require a signature, since the box that raises them exists only while there is one.
- The number of pages reported to SharedSignPage is stored by the source but never read, so it is not part of the model.
- Login, upload, the other shared-sign page, the document card, the navbar, toasts, the loader, the PDF viewer and routing are not part of this model.

## Findings

| source | as written | input that shows it | evidently intended | confidence | as-written member | corrected member |
|---|---|---|---|---|---|---|
| src/components/StatusBadge.jsx:11 | the lower-cased status indexes a plain object literal, so inherited Object.prototype properties are found too | status "constructor" (or "Constructor") yields the text of the Object function as the class list instead of the gray fallback | only pending, signed and rejected have their own class; every other status gets the fallback | not executed | StatusBadge.ColorClassAsWritten, StatusBadge.ConstructorStatusMissesFallback | StatusBadge.ColorClass |
