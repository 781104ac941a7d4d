# video2pdf: the print run, modelled in Dafny

video2pdf is a browser page. It turns an animated GIF or a short video into a
printable flip-book. On each click of the print button, `main` in
`src/main.js` does four things:

- It cleans up after the previous click: it detaches the previous print frame
  and revokes every frame URL of the previous extraction.
- It checks that a file was chosen, then defaults the three numeric fields
  (repetitions, frames per second, images per row).
- It has the ffmpeg engine cut the file into PNG frames. It turns every file
  of the engine's output listing into an object URL, and repeats that URL
  list the requested number of times.
- It hands the result to `printPNGs`, which lays the frames out as tiles of
  `8.2 / imagesPerRow` inches, each with a binding strip showing two hole
  marks.

The model keeps the sequential logic of that run and makes the browser and the engine into inputs:

- `Parameters` handles the defaulting of the numeric fields. The widget's
  `valueAsNumber` is an `Option<int>`, and `None` stands for NaN.
- `Decimal` renders a whole number in decimal, the way a template literal
  prints one below 10^21, and it proves that rendering can be inverted.
- `Frames` covers two things:
  - which listing entries become frames (files, in listing order);
  - the repetition loop, `Repeat`, proved against `Cycle`, which is `k`
    copies of the list back to back.
- `Markup` covers the tile width and the body markup of `printPNGs`. A
  parser for that markup proves that the body holds exactly one tile per
  URL, in order: rendering then parsing gives back the URL list, and
  parsing then rendering gives back the string.
- `ObjectUrls` is the browser's object-URL store (`Registry`):
  `createObjectURL` hands out a URL never handed out before, and
  `revokeObjectURL` removes one.
- `Page` holds the state between clicks, in the class `Session`: the module-level `iframe` and
  `lastPngUrls`, the store, and a trace of every observable step.
  - `Run` is one click, with its whole new state stated for each outcome.
  - The engine is an input, `EngineReply`: either it fails at one of its
    preparation requests, or it lists its output directory.
- `Scenarios` runs several clicks on one page and states what the runs
  do to each other: which URLs get revoked, and which stay live.

## Model

| member | source | states |
|---|---|---|
| Parameters.Effective | src/main.js:104-117 | the value used is at least 1. It is the input itself when the input is a number of at least 1, and it differs from the default only when it is that input |
| Parameters.Resolve | src/main.js:104-117 | for each raw field: a missing (NaN) or below-1 repetitions value gives 1, frames per second 10, images per row 1; a value of at least 1 is used as it is |
| Parameters.FallsBackExactlyWhenUnusable | src/main.js:105-116 | a missing or below-1 input gives the default, and a present input is kept exactly when it is at least 1 (both directions) |
| Parameters.FallbackExamples | src/main.js:104-117 | empty, 0 and -5 give 1, 10 and 1, and 3 is kept |
| Decimal.Show | src/main.js:134 | the rendering of a frame rate is a non-empty string of digits with no leading zero |
| Decimal.ValueOfShow | src/main.js:134 | reading the rendered digits back gives the number, so the filter argument carries the frame rate exactly |
| Decimal.ShowInjective | src/main.js:134 | different frame rates give different filter arguments |
| Frames.FileNames | src/main.js:140-141 | the selection is never longer than the listing; its order and membership are stated by `FileNamesAppend` and `FileNamesMembership` |
| Frames.FileNamesAppend | src/main.js:140-148 | selecting files commutes with concatenating listings, so files keep their listing order |
| Frames.FileNamesMembership | src/main.js:140-141 | a name is selected exactly when some non-directory entry of the listing carries it |
| Frames.FileNamesCount | src/main.js:140-141 | the selection keeps the whole listing exactly when it holds no directory, and it is empty exactly when it holds only directories |
| Frames.CycleLength | src/main.js:152-154 | `k` copies of a list of length `n` have length `k * n` |
| Frames.CycleAt | src/main.js:152-154 | position `j` of the repeated list holds element `j mod n` of the snapshot |
| Frames.Repeat | src/main.js:150-154 | with a count below 2 the list is left as it is. With count `R >= 1` the result has length `R * n`, position `i` holds snapshot element `i mod n`, it starts with the snapshot, and it is `R` copies of the snapshot |
| Markup.TileWidth | src/main.js:184 | the tile width is positive, and it times the number of images per row is 8.2 inches |
| Markup.TwoPerRow | src/main.js:184 | two images per row give tiles 4.1 inches wide |
| Markup.MoreIsNarrower | src/main.js:184 | more images per row give strictly narrower tiles |
| Markup.ParseTilesOfRender | src/main.js:214-226 | parsing the tiles rendered for a non-empty quote-free URL list gives back that list |
| Markup.RenderOfParseTiles | src/main.js:214-226 | whatever the tile parser accepts is exactly the rendering of the URLs it returns |
| Markup.ParseBodyOfBody | src/main.js:214-226 | the body holds exactly one tile per URL, in the same order, each with that URL as its image source, for any list of quote-free URLs (the empty list included) |
| Markup.BodyOfParseBody | src/main.js:214-226 | a string is read as a URL list only when it is the body of that list |
| Markup.Body | src/main.js:214-226 | the body markup of a URL list; what it holds is stated by `ParseBodyOfBody` and `BodyOfParseBody` |
| Markup.Render | src/main.js:214-226 | the tiles of a non-empty URL list, joined; characterised by `ParseTilesOfRender` and `RenderOfParseTiles` |
| Markup.Tile | src/main.js:214-225 | one tile: the fixed head with the two hole marks, the URL as image source, the fixed tail; `ParseSingleTile` reads the URL back |
| Markup.Join | src/main.js:226 | the parts with `sep` between neighbours; `Render` passes `"\n"`, as line 226's `join("\n")` does; characterised by `ParseBodyOfBody` |
| ObjectUrls.BlobUrl | src/main.js:145 | an object URL has the `blob:` scheme and contains no double quote, so it cannot end the `src` attribute early |
| ObjectUrls.BlobUrlInjective | src/main.js:145 | different allocation numbers give different URLs |
| ObjectUrls.AllocationsDistinct | src/main.js:145 | consecutive allocations never repeat a URL |
| ObjectUrls.Registry.Create | src/main.js:145 | `createObjectURL` returns a URL that is not live, makes it refer to the blob, and changes nothing else in the store |
| ObjectUrls.Registry.Revoke | src/main.js:88 | `revokeObjectURL` removes exactly that URL from the store |
| Page.Filter | src/main.js:134 | the `-vf` argument of the `exec` request; what it holds is stated by `FilterCarriesRate` |
| Page.FilterCarriesRate | src/main.js:134 | the filter is `fps=`, then digits whose value is exactly the frame rate, then `,scale=640:-1` |
| Page.FramePath | src/main.js:143 | the engine path of an output file; its content is stated by `FramePathInjective` |
| Page.FramePathInjective | src/main.js:143 | different output file names are read from different paths under `output` |
| Page.CleanupEvents | src/main.js:86-88 | the cleanup's trace: one detachment if a frame was attached, then one revocation per last frame URL |
| Page.ExtractionEvents | src/main.js:140-147 | the frame loop's trace: two events (read, create) per frame file |
| Page.Registered | src/main.js:143-147 | the store after the frame loop; stated by `RegisteredLookup` and `RegisteredFrame` |
| Page.Detachments | src/main.js:86-87 | the number of layout-frame removals in a trace |
| Page.RunDetachments | src/main.js:86-87 | a run removes one layout frame when one was attached, and none otherwise |
| Page.ExtractionKinds | src/main.js:140-147 | the frame loop only makes engine requests and creates URLs |
| Page.Session.constructor | src/main.js:43-48 | a new page has no layout frame, no last frame URLs, an empty store and an empty trace |
| Page.Preparation | src/main.js:119-136 | a run makes five requests before reading frames: load, write the input, create the output directory, run the filter, list the output |
| Page.StageIndex | src/main.js:122-136 | each engine stage names one of the five preparation requests |
| Page.RegisteredLookup | src/main.js:143-147 | after the frames are collected, a URL is live exactly when it was live before or is one of the new frame URLs, and URLs that were live keep their blob |
| Page.RegisteredFrame | src/main.js:143-145 | the URL of the `k`-th frame file refers to the blob read from that file |
| Page.AllocationsAreNew | src/main.js:145 | a URL handed out earlier is never among later allocations |
| Page.ProjectionsAppend | src/main.js:77-157 | the revocations and the engine requests of consecutive trace segments are those of each segment, in order |
| Page.CleanupProjections | src/main.js:86-88 | the cleanup revokes exactly the last frame URLs, in order, and asks nothing of the engine |
| Page.CallsProjections | src/main.js:119-136 | the engine requests appear in the trace as they were made, and they revoke nothing |
| Page.ExtractionProjections | src/main.js:140-148 | collecting frames revokes nothing, and it reads each frame file once, in listing order |
| Page.PrintedRunProjections | src/main.js:86-148 | a printing run revokes the previous frame URLs, then makes the five preparation requests and one read per frame file |
| Page.UnprintedRunProjections | src/main.js:86-100 | a run that stops before printing revokes the previous frame URLs and makes only the engine requests it got to |
| Page.CleanupAppended | src/main.js:86-88 | a cleanup appended to any trace adds the last frame URLs to its revocations and nothing to its engine requests |
| Page.CallsAppended | src/main.js:119-136 | engine requests appended to any trace add to its engine requests and not to its revocations |
| Page.RunEventsCleanupFirst | src/main.js:79-90 | within a run every revocation comes before the first engine request and before the first new URL |
| Page.PrintedBodyReadsBack | src/main.js:150-156 | the printed body is exactly the repeated frame URLs, one tile each and in order |
| Page.Session.Cleanup | src/main.js:86-88 | the old frame is detached if it was attached, and every last frame URL is revoked in order. `lastPngUrls` is kept, not cleared, and nothing else changes |
| Page.Session.CollectFile | src/main.js:143-147 | one file is read, and the URL of its blob is fresh and now live |
| Page.Session.CollectFrames | src/main.js:138-148 | one fresh URL per non-directory entry, in listing order. Each file is read from the output directory in order, and the new URLs are all live, each referring to its file's blob |
| Page.Session.PrintPngs | src/main.js:159-246 | the new attached layout has tile width `8.2 / imagesPerRow` and the body of the given URL list |
| Page.Session.Run | src/main.js:77-157 | the cleanup comes first on every click. Then, for each outcome: with no file there are no engine requests and `lastPngUrls` is unchanged; if the engine fails, the requests stop at the failing one; after a listing, `lastPngUrls` is the fresh list of frame URLs and the print is that list repeated `repetitions` times, laid out with the defaulted rows |
| Scenarios.TwoPrints | src/main.js:86-150 | after two printing clicks, each with its own repetitions, frame rate and rows (the widgets are read anew on each click, lines 104-117), the second click has revoked exactly the first click's frame URLs, each once and in order. It has detached exactly one layout frame, the first one, before doing anything else, and there is exactly one detachment in the whole trace. The first click's URLs are distinct and are not among the second's, and the live URLs are exactly the second click's |
| Scenarios.FirstPrint | src/main.js:43-150 | the first printing click on a new page revokes nothing, detaches nothing, attaches the layout frame and makes exactly its frame URLs live |
| Scenarios.DetachedFirst | src/main.js:86-87 | a run that starts with an attached frame detaches it as its very first step |
| Scenarios.PrintAgainAfterFailure | src/main.js:88-117 | for any widget values on each of the three clicks, a click that does not print leaves the old URL list in place. The next printing click therefore revokes those URLs a second time, and a click without a file makes no engine request |
| Scenarios.SecondPrintRegistry | src/main.js:88-147 | after two prints on a fresh page, the live URLs are exactly the second print's frames |
| Scenarios.CleanupEmptiesRegistry | src/main.js:88 | revoking every frame of the only print on a page leaves no live URL |
| Scenarios.RegistryOfEmpty | src/main.js:143-147 | collecting frames into an empty store makes exactly their URLs live |
| Scenarios.AllocationsDisjoint | src/main.js:145 | a later click's URLs never coincide with an earlier click's |

## Left out

- The engine is not modelled. Its calls `load`, `writeFile`, `createDir`, `exec`, `listDir` and `readFile` (src/main.js:119-143) are asynchronous calls into a WebAssembly library. The model records each request in the trace and takes what the engine does as an input: a failure at one of the five preparation stages, or the output listing. The file's bytes are opaque.
- A `readFile` that fails partway through the frame loop is not modelled. A run either fails before the listing or reads every listed file.
- URL format: the browser decides what `createObjectURL` returns. The model uses `blob:` followed by a decimal counter, which is a stand-in that has the properties the code relies on: the URLs are fresh, distinct, and contain no double quote.
- Page.Session.Cleanup: `revokeObjectURL` on a URL that was already revoked is modelled as removing nothing from the store. The browser treats it the same way.
- Toastify notifications (src/main.js:7-13, 58-75, 81-98) are UI only and are left out.
- Loading the libraries and wiring the click handler (src/main.js:50-75) are network and asynchronous work. The model assumes the handler is installed.
- The iframe's `document.write` head and CSS text, the wait for images to load, and `print()` (src/main.js:160-213, 227-244) are left out. `PrintPngs` makes and attaches the layout frame directly, holding only the tile width and the body markup.
- Page.Session.PrintPngs: requires at least one image per row. Its only caller passes the defaulted rows value, which is always at least 1.
- Markup.ParseBodyOfBody: the model does not count the hole elements as substrings of the text. The two `<i class="hole"></i>` marks are fixed parts of the tile head (`TileHead`), and the head is shown to frame every URL exactly once.
- Decimal.Show: matches a template literal only below 10^21. From 10^21 up, JavaScript prints exponent form (`1e+21`), which the model does not produce. Above 2^53, `valueAsNumber` is no longer an exact integer, and the model does not round. Both are far beyond any frame rate the page is used with.
- Formatting the width as a decimal number is left out. The width is an exact `real`.
- Fractional `valueAsNumber` values and `Infinity` are left out. The numeric inputs are whole numbers or missing.
- The assignment `inputFile.files = null` (src/main.js:102) is not modelled. It is widget state, and under the HTML standard the `files` setter ignores `null`, so it does not even clear the widget.
- Concurrent clicks while a run is awaiting the engine are left out. Runs are sequential.
- The build configuration (vite.config.js) is left out.
- A run that finds no file, or one whose engine fails, leaves `lastPngUrls` as it was. That list was already revoked, so the next printing run revokes it again (`Scenarios.PrintAgainAfterFailure`). The model follows the code here. So a URL can be revoked twice; every URL is revoked exactly once only across two consecutive printing runs (`Scenarios.TwoPrints`).
- Before the first extraction `lastPngUrls` is undefined (it is declared `string[] | null`, src/main.js:46-48). The model starts from the empty list, because the optional call at line 88 revokes nothing in both cases.
