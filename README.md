# Moodstocks scanner SDK: handle lifecycle, scan session and results

This project models the scanning core of the Moodstocks iOS SDK as used in
the PersonalizedDiscounts app. It covers three pieces.

- **The native scanner object** (`moodstocks_sdk.h`). This part holds the
  fifteen error codes, the barcode format bits and the rule that
  `ms_img_new` applies to image sizes. It also has the scanner object with
  its database file. `Sdk.Store` stands for the process-wide files and their
  locks. `Sdk.Scanner` is the `ms_scanner_t` handle, which moves between
  unopened, opened, closed, failed and deleted. Each call's documented error
  outcome is its contract.
- **The scanner session** (`Obj-C/MSScannerSession.h`). This is a class
  with the fields `_state`, `_snap`, `_result` and `_losts`, driven by
  `pause`, `resume`, `snap`, `cancel`, `scan:options:error:` and the API
  search callbacks. Each transition is also a function on a value of those
  fields (`Session.Step`). Properties of whole call sequences are proved
  over `Session.Run`.
- **The result value** (`Obj-C/MSResult.h`). This is a datatype made of a
  type tag and bytes, with its constructors, accessors, strict equality and
  copy.

The headers have no function bodies. The model therefore follows what the
declarations and their comments promise. Neither the recognition engine nor
the network is visible. What they would answer is a parameter of each call:
the engine's verdict on an open, the records a sync fetched, a `Recognizer`
function saying which reference images a query shows, the barcode the
decoder read, and the outcome of an API search. So every contract holds for
every possible engine answer.

Readings the headers leave open, fixed here:

- `ms_img_new`: "should not exceed 1280x720" is read without regard to
  orientation. The longer side may be at most 1280 and the shorter side at
  most 720, so 720x1280 is admitted. The longer side must be at least 480.
- A failed `ms_scanner_open` leaves the scanner usable only for another
  open (the retry after `ms_scanner_clean` on a corrupt file) and for
  `ms_scanner_del`. Every other call answers `MS_MISUSE`. An unopened or
  closed scanner answers the same way.
- A successful open on a path with no file creates an empty database there.
- `ms_scanner_clean` answers `MS_BUSY` exactly when an open scanner holds
  the path. Locks are counted per path: open adds one and close or delete
  removes one. When the path is not held, the file system's answer to the
  removal is a parameter. So whether a path with no file gives success or
  `MS_NOFILE` is left to it, and the file is removed only on success.
- A database holds each image identifier at most once, as the header's
  "unique image identifier strings" says.
- Session: `snap` in DEFAULT moves to SEARCH and sets the pending-snap
  flag. The next `scan` consumes the flag and hands its frame to the API
  search. That frame is the "next incoming query frame", not one buffered
  before the snap. Search events reach the delegate only while that search
  is pending. Its completion or failure returns the session to DEFAULT.
  `cancel` in SEARCH drops the pending snap or the search.
- `pause` in PAUSE answers YES and changes nothing. `resume` also forgets
  the cached result and resets the lost-frame counter, so a resumed session
  behaves as a new one.
- `scan` with both image and barcode types requested reports an image found
  by the offline search before a decoded barcode.
- `MS_RESULT_TYPE_IMAGE` is `1 << 31`, which is not a valid C `int`
  constant. The model keeps types and options as 32-bit vectors with that
  bit pattern.

## Model

| member | source | states |
|---|---|---|
| Sdk.Code | moodstocks_sdk.h:26-42 | each error code's integer lies in 0..14 and indexes that code in declaration order |
| Sdk.FromCode | moodstocks_sdk.h:23-42 | an integer denotes an error code exactly when it lies in 0..14 |
| Sdk.CodesAreConsecutive | moodstocks_sdk.h:26-42 | every integer from `MS_SUCCESS = 0` to `MS_NOREC = 14` is the value of exactly one code |
| Sdk.CodeRoundTrip | moodstocks_sdk.h:26-42 | decoding a code's integer gives back that code |
| Sdk.BarcodeFormatsAreDistinctBits | moodstocks_sdk.h:142-149 | EAN8, EAN13 and QR Code are pairwise disjoint single bits, each inside the or of all three |
| Sdk.ExifTag | moodstocks_sdk.h:90-101 | an orientation's tag value is one of the EXIF values 0, 1, 3, 6, 8 |
| Sdk.OrientationOfTag | moodstocks_sdk.h:90-101 | an integer denotes an orientation exactly when it is 0, 1, 3, 6 or 8, and then it is that orientation's tag |
| Sdk.OrientationTagRoundTrip | moodstocks_sdk.h:80-101 | orientations and their EXIF tag values 0, 1, 3, 6, 8 correspond one to one |
| Sdk.ImgNew | moodstocks_sdk.h:106-130 | an image is created exactly when one side is at least 480 and it fits 1280x720 in some orientation; every other size gives `MS_MISUSE`; a created image keeps the arguments |
| Sdk.ImgNewBoundaries | moodstocks_sdk.h:121-127 | 1280x720 and 720x1280 are admitted; 479x479, 1281x720, 1280x721 and 1920x1080 are refused with `MS_MISUSE` |
| Sdk.Store.Clean | moodstocks_sdk.h:230-244 | `MS_BUSY` and nothing removed while an open scanner holds the path; otherwise the file system's answer, with the file removed exactly on success; locks unchanged |
| Sdk.Scanner.constructor | moodstocks_sdk.h:185-192 | a new scanner is unopened |
| Sdk.Scanner.Open | moodstocks_sdk.h:201-217 | opening an open scanner gives `MS_MISUSE` and changes nothing; otherwise the engine's verdict is returned, and success opens the file and takes its lock while failure leaves the scanner failed and the files untouched |
| Sdk.Scanner.Close | moodstocks_sdk.h:219-228 | closing an open scanner releases its lock and succeeds; closing any other scanner gives `MS_MISUSE` and changes nothing |
| Sdk.Scanner.Delete | moodstocks_sdk.h:194-199 | deleting closes an open scanner implicitly, releasing its lock |
| Sdk.Scanner.Sync | moodstocks_sdk.h:257-267 | only an open scanner syncs; on success the file holds the fetched records, on failure it is unchanged |
| Sdk.Scanner.Info | moodstocks_sdk.h:283-300 | on an empty database `MS_EMPTY` with count and ids untouched; otherwise count is the number of records and ids, when asked for, lists exactly those `count` records |
| Sdk.Scanner.Search | moodstocks_sdk.h:302-316 | an open scanner returns an identifier of the database that the query matches, or none only when no record matches |
| Sdk.Scanner.Match | moodstocks_sdk.h:318-336 | `MS_EMPTY` on an empty database, `MS_NOREC` for an unknown id, otherwise success with flag 1 exactly when the query matches that reference and 0 otherwise |
| Sdk.Scanner.Decode | moodstocks_sdk.h:365-379 | a decoded barcode is reported only when its format is a known format included in the requested mask, and then always |
| Sdk.Scanner.ApiSearch | moodstocks_sdk.h:342-359 | an open scanner returns the API's outcome, with an identifier only on success |
| Sdk.OpenTwiceIsMisuse | moodstocks_sdk.h:213-214 | a second open of an open scanner gives `MS_MISUSE` and it stays open on the first file |
| Sdk.CleanIsBusyUntilClose | moodstocks_sdk.h:240-243 | clean gives `MS_BUSY` while a scanner holds the file open, and after close it succeeds and removes the file |
| Sdk.FailedOpenBlocksUse | moodstocks_sdk.h:209-215 | after a failed open, close, info, search and match all give `MS_MISUSE`; clean and then open succeed |
| Sdk.InfoAroundSync | moodstocks_sdk.h:292-298 | info on a fresh database gives `MS_EMPTY` and leaves the out-variables alone; after a sync it lists the fetched records |
| Results.ResultTypesAreDistinctBits | Obj-C/MSResult.h:28-39 | NONE is 0; EAN8, EAN13, QRCODE and IMAGE are pairwise disjoint single bits |
| Results.RequestedIsUnambiguous | Obj-C/MSResult.h:28-39 | testing a one-flag options mask with bitwise-and finds that flag's type and no other |
| Results.BarcodeTypesAreSdkFormats | Obj-C/MSResult.h:35-38 | the three barcode result types equal the native `MS_BARCODE_FMT_*` bits, and IMAGE is disjoint from them |
| Results.Init | Obj-C/MSResult.h:61 | a plain result has type NONE and no bytes |
| Results.InitWithBytes | Obj-C/MSResult.h:57-62 | the new result's type and length are the arguments and its bytes are the first `length` bytes given |
| Results.InitWithBarcode | Obj-C/MSResult.h:63 | the barcode's format becomes the type and its data the bytes |
| Results.StrLen | Obj-C/MSResult.h:64 | the length of a C string is the index of its first NUL |
| Results.InitWithImageID | Obj-C/MSResult.h:64 | an IMAGE result whose bytes are the identifier up to, not including, its NUL |
| Results.ImageIdValue | Obj-C/MSResult.h:41-46 | an identifier passed as a C string comes back unchanged as the value of an IMAGE result |
| Results.FromImageId | Obj-C/MSResult.h:45-46 | the IMAGE result for an identifier has that identifier as its bytes |
| Results.MSResult.Length | Obj-C/MSResult.h:58 | the `length` property is the number of bytes `getData` returns |
| Results.MSResult.GetType | Obj-C/MSResult.h:78-81 | `getType` together with the payload recovers the whole result |
| Results.MSResult.GetData | Obj-C/MSResult.h:73-76 | `getData` together with the type recovers the whole result |
| Results.MemEqual | Obj-C/MSResult.h:83-87 | a byte-wise comparison of `n` bytes succeeds exactly when the first `n` bytes agree, proved by induction over the bytes |
| Results.MSResult.IsEqualToResult | Obj-C/MSResult.h:83-87 | `isEqualToResult:` (same type, same length, same bytes) holds exactly when the argument is this very value; never against nil |
| Results.IsEqualToResultIsEquivalence | Obj-C/MSResult.h:83-87 | `isEqualToResult:` is reflexive, symmetric and transitive, and false against nil |
| Results.Copy | Obj-C/MSResult.h:89-92 | a copy has the original's type and bytes |
| Results.CopyIsEqualToOriginal | Obj-C/MSResult.h:89-92 | a copy and its original are equal by `isEqualToResult:` in both directions |
| Results.AccessorsReturnConstructorArguments | Obj-C/MSResult.h:73-81 | `getType` and `getData` return the type and exactly the `length` bytes the result was built from |
| Session.LocalPick | Obj-C/MSScannerSession.h:96-109 | a scan reports only a requested type; a requested image found offline wins; an IMAGE result is always the offline search's identifier, and any other result is the decoded barcode in a requested known format; nothing is reported exactly when neither is available |
| Session.Coherent | Obj-C/MSScannerSession.h:43-47 | the state invariant: a pending snap exists only in SEARCH |
| Session.PauseStep | Obj-C/MSScannerSession.h:74-85 | `pause` answers a BOOL and keeps the session coherent |
| Session.ResumeStep | Obj-C/MSScannerSession.h:87-94 | `resume` answers a BOOL and keeps the session coherent |
| Session.SnapStep | Obj-C/MSScannerSession.h:111-123 | `snap` answers a BOOL, keeps the session coherent, and a snap becomes pending only when it answers YES |
| Session.CancelStep | Obj-C/MSScannerSession.h:125-130 | `cancel` answers a BOOL and leaves the session neither in SEARCH nor with a pending snap |
| Session.ScanStep | Obj-C/MSScannerSession.h:96-109 | a scan never makes a snap pending, keeps the session coherent, and hands its own frame to the API search exactly when it consumes a pending snap |
| Session.EventStep | Obj-C/MSScannerSession.h:111-117 | an API search event leaves the pending snap alone, keeps coherence, and is forwarded unchanged and only in SEARCH |
| Session.Step | Obj-C/MSScannerSession.h:74-130 | every call keeps the session coherent and answers in the form of its kind (a BOOL, a scan result or a forwarded event) |
| Session.Run | Obj-C/MSScannerSession.h:74-130 | the fold of `Step` over a call sequence, one answer per call; the helper the sequence lemmas below are stated over |
| Session.PauseRefusedWhileSearching | Obj-C/MSScannerSession.h:74-85 | `pause` answers NO exactly in SEARCH and then changes nothing; otherwise the session is paused |
| Session.ResumeExactlyWhenPaused | Obj-C/MSScannerSession.h:87-94 | `resume` answers YES exactly when paused; it then accepts scans as a fresh session; otherwise nothing changes |
| Session.SnapRefusedUnlessDefault | Obj-C/MSScannerSession.h:111-123 | `snap` answers YES exactly in DEFAULT; refused while paused or searching, with nothing changed |
| Session.CancelLeavesSearch | Obj-C/MSScannerSession.h:125-130 | `cancel` answers YES exactly when a search triggered by `snap` is pending, and afterwards the session is not in SEARCH |
| Session.SnapAppliesToNextFrame | Obj-C/MSScannerSession.h:111-123 | after an accepted snap the next scanned frame goes to the API search and the pending flag is cleared |
| Session.ScanReportsOnlyThisFrame | Obj-C/MSScannerSession.h:96-109 | what a scan reports never depends on the cached result or the lost-frame count |
| Session.RunKeepsCoherent | Obj-C/MSScannerSession.h:31-47 | through any sequence of calls a pending snap exists only in SEARCH |
| Session.PausedIgnoresUntilResume | Obj-C/MSScannerSession.h:74-94 | once paused, every scan and snap is ignored and the fields stay the same until `resume` |
| Session.OneFramePerSnap | Obj-C/MSScannerSession.h:111-130 | over any call sequence, the frames handed to the API search never exceed the snaps accepted |
| Session.PauseAfterCancel | Obj-C/MSScannerSession.h:82-85 | from SEARCH: `pause` NO, `cancel` YES, `pause` YES, ending in PAUSE |
| Session.MSScannerSession.State | Obj-C/MSScannerSession.h:64 | the readonly `state` property is the `_state` field, and it is SEARCH whenever a snap is pending |
| Session.MSScannerSession.constructor | Obj-C/MSScannerSession.h:66-72 | a new session is in DEFAULT with no pending snap, cached result or lost frame |
| Session.MSScannerSession.Pause | Obj-C/MSScannerSession.h:74-85 | YES exactly outside SEARCH, then PAUSE; a refusal leaves every field unchanged |
| Session.MSScannerSession.Resume | Obj-C/MSScannerSession.h:87-94 | YES exactly in PAUSE, then the fields of a new session; a refusal leaves every field unchanged |
| Session.MSScannerSession.Snap | Obj-C/MSScannerSession.h:111-123 | YES exactly in DEFAULT, then SEARCH with a pending snap and no cached result; a refusal changes nothing |
| Session.MSScannerSession.Cancel | Obj-C/MSScannerSession.h:125-130 | YES exactly in SEARCH; afterwards neither SEARCH nor a pending snap |
| Session.MSScannerSession.Scan | Obj-C/MSScannerSession.h:96-109 | a frame goes to the API search exactly when a snap was pending; a local result only in DEFAULT and as `LocalPick` chooses; a paused session changes nothing |
| Session.MSScannerSession.OnSearchEvent | Obj-C/MSScannerSession.h:111-117 | search events are delivered only while the launched search is pending, and its end returns to DEFAULT |
| Session.SnapSearchScenario | Obj-C/MSScannerSession.h:111-123 | snap YES; the next frame is sent; will-search and the IMAGE result are each delivered once; back in DEFAULT; a stray completion is dropped |
| Session.PauseWhileSearchingScenario | Obj-C/MSScannerSession.h:82-85 | after a snap, `pause` is NO, `cancel` YES, then `pause` YES and the state is PAUSE |
| Session.ResumeForgetsResultScenario | Obj-C/MSScannerSession.h:74-94 | a found result is cached; while paused the same frame is ignored; after resume the cached result is gone and a missing frame reports nothing |

## Left out

- Sync progress (`ms_scanner_sync2`'s callback), background sync and API search queues, delegate dispatch to the main thread, and the locking of the native handle. These are concurrency and OS lifecycle, and they follow `Obj-C/MSScanner.h` and `Obj-C/MSSync.h`, which are not part of this model. Their outcomes appear only as engine-answer parameters.
- Recognition and decoding themselves. These are the opaque engine and appear as parameters: a `Recognizer` function, a decoded `Barcode`, and an API outcome.
- `ms_errmsg` and `ms_version`: the header does not give the strings.
- Pixel formats and orientation are enumerations only. The pixel data is not modelled, and neither is `ms_img_del`: an image here is a value.
- Sdk.ImgNew: only the documented size conditions are checked. The header does not say how non-positive sides or a row stride too small for the width are treated, and the model admits them.
- Sdk.Scanner.Close, Sdk.Scanner.Search, Sdk.Scanner.Match and Sdk.Scanner.Decode: failures other than the documented ones (`MS_MISUSE`, `MS_EMPTY`, `MS_NOREC`), such as I/O or threading errors, are not modelled.
- Sdk.Scanner.Info: failures other than `MS_MISUSE` and `MS_EMPTY` (the "appropriate error code" of an I/O or allocation error) are not modelled.
- Sdk.Scanner.constructor: `ms_scanner_new` always succeeds here. Its allocation failure is not modelled, because a failed allocation leaves no object to model.
- Sdk.Scanner.Search: the header does not say what happens on an empty database. The model answers success with no match.
- Sdk.Scanner.Match: the header does not say what the flag is after a failure. The model sets it to 0, and the contract says nothing about it.
- Sdk.Scanner.Open: the key and secret are not parameters. The engine's verdict on them (for example `MS_CREDMISMATCH`) arrives in `engine`.
- Sdk.Scanner.Valid: the fact that an open scanner holds its file's lock is kept by each scanner's own calls. Another scanner closing the same path is not ruled out, because no global list of scanners is modelled.
- Session.MSScannerSession.Scan: the lost-frame debouncing is not modelled, because the header gives no threshold. The counter `_losts` is kept (reset on a hit, incremented on a miss), but no result is withheld because of it.
- Session.MSScannerSession.Scan: a single error is returned per frame for the local search and decode together. The wrapping of native codes into `NSError` is not modelled.
- Session.MSScannerSession.OnSearchEvent: cancelling the API search inside the scanner, which keeps a cancelled search's events from arriving, belongs to `Obj-C/MSScanner.h` and is not modelled. The session only drops events that arrive when no launched search is pending.
- The session's `_scanner` and `delegate` references are not fields. The scanner's answers come in as parameters, and what would go to the delegate is returned.
- `getValue` is not modelled: UTF-8 decoding into an `NSString` is left out. `GetData` gives the same bytes.
- Result lengths above the range of a C `int`, and `NSUInteger` truncation in `initWithBytes:length:type:`, are not modelled.
