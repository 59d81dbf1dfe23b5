# EcoSmart frontend: the decision logic of three pages, in Dafny

EcoSmart is a waste-management web front end built with Next.js and React.
This project models the three pages that hold real decisions and proves
what those decisions guarantee:

- **Cleanup verification** (`app/verify-cleanup/page.tsx`). The page first
  settles on a report identifier: the URL parameter wins over the window
  handoff value, and one leading `report_` is stripped. It checks that the
  identifier is a 24-digit hexadecimal MongoDB object id. It loads the
  original report, and installs a placeholder when that fails. It rejects
  a submit through three ordered guards. It classifies the backend's reply
  to the "after" image. The rendering rules cover the improvement bands and
  the case-insensitive status and severity badges.
- **Wallet** (`app/wallet/page.tsx`). The page loads the benefit catalogue
  and the demo user's wallet, and installs fixed demo data when loading
  throws. A benefit is redeemed through a confirmation modal. A balance
  guard stands in front of the request. The wallet is debited on both the
  success path and the failure path.
- **Waste report** (`app/report/page.tsx`). The page opens the camera,
  captures a frame or picks a gallery file, and stops the camera. It takes
  the location from geolocation. It submits the report and renders the
  validation reply. That reply's label fields arrive as an array of strings,
  an array of `{type, confidence}` objects or a comma-separated string.

Each page is a Dafny `class`. Its fields are the page's React state, and
each handler is a method. The outcome of every network request, and of the
browser APIs (camera, geolocation, object URLs), is passed in as a
parameter. The POST requests a page sends are recorded in a log field:
`verifyRequests` for the verification upload, `redeemRequests` for the
redemptions and `submissions` for the waste reports. The GET requests (the
original report, the benefit catalogue, the wallet) and the geocoding
lookup are not logged; only their outcomes enter the model. The
verification page also records the preview URLs it revokes, in
`revokedUrls`. The
decisions are pure functions with contracts, and the lemmas beside them
state the guarantees. Each handler's `ensures` ties the new state to those
functions.

Files:

- `common.dfy`: options, picked files, and JavaScript truthiness of optional
  strings.
- `strings.dfy`: `toLowerCase`, `trim`, `split(",")` with its inverse
  `join`, and number-to-text rendering.
- `verify_cleanup.dfy`, `wallet.dfy` and `report.dfy`: one module per page.

The mode buttons only set the mode (app/report/page.tsx:243 and 257), so
an open camera keeps running after a switch to the gallery. `SetUploadMode`
changes nothing else, and the gap is a finding below.

## Model

| member | source | states |
|---|---|---|
| Strings.ToLower | app/verify-cleanup/page.tsx:289 | the result has the input's length, with every character lowered |
| Strings.ToLowerIgnoresCase | app/verify-cleanup/page.tsx:289-314 | two strings differing only in letter case lower-case to the same string |
| Strings.ToLowerIdempotent | app/verify-cleanup/page.tsx:289-314 | lower-casing twice equals lower-casing once |
| Strings.LeadingWhitespace | app/report/page.tsx:548 | the count of leading whitespace: every character before it is whitespace, and the next one is not |
| Strings.TrailingWhitespace | app/report/page.tsx:548 | the count of trailing whitespace: every character after it is whitespace, and the one before is not |
| Strings.TrimStart | app/report/page.tsx:548 | the result is a suffix, everything dropped is whitespace, and the result does not start with whitespace |
| Strings.TrimEnd | app/report/page.tsx:548 | the result is a prefix, everything dropped is whitespace, and the result does not end with whitespace |
| Strings.Trim | app/report/page.tsx:548 | the result has whitespace at neither end and is no longer than the input |
| Strings.TrimKeepsMiddle | app/report/page.tsx:548 | trim keeps one contiguous middle part of the input, with only whitespace before and after it |
| Strings.TrimOfTrimmed | app/report/page.tsx:548 | a string without whitespace at its ends is its own trim |
| Strings.TrimIdempotent | app/report/page.tsx:548 | trimming twice equals trimming once |
| Strings.Split | app/report/page.tsx:541-542 | splitting on a character gives one piece more than its occurrences, and no piece contains it |
| Strings.JoinSplit | app/report/page.tsx:541-542 | joining the pieces of a split gives the original string back |
| Strings.SplitAfterPlainPrefix | app/report/page.tsx:541-542 | a separator-free prefix is glued onto the first piece of the split |
| Strings.SplitJoin | app/report/page.tsx:541-542 | splitting a join of separator-free pieces gives the pieces back |
| Strings.NatToString | app/verify-cleanup/page.tsx:248 | the status code renders as a nonempty run of decimal digits that denotes the code, with no leading zero |
| VerifyCleanup.StripReportPrefix | app/verify-cleanup/page.tsx:70 | with the prefix, the raw id is the prefix followed by the cleaned id; without it, the id is unchanged |
| VerifyCleanup.StripRemovesOnePrefix | app/verify-cleanup/page.tsx:70-82 | stripping undoes one prepended prefix, and a doubled prefix loses only one copy |
| VerifyCleanup.SelectReportId | app/verify-cleanup/page.tsx:63-89 | a truthy URL parameter is used, else a truthy window value, else none; each is stripped |
| VerifyCleanup.UrlParameterWins | app/verify-cleanup/page.tsx:65-88 | when the URL parameter is truthy, the window value is irrelevant |
| VerifyCleanup.IsObjectId | app/verify-cleanup/page.tsx:193 | the regular expression `/^[0-9a-fA-F]{24}$/`: exactly 24 characters, each a hexadecimal digit of either case |
| VerifyCleanup.ObjectIdHasNoPrefix | app/verify-cleanup/page.tsx:70-95 | a valid object id passes the strip unchanged |
| VerifyCleanup.PrefixedObjectIdResolves | app/verify-cleanup/page.tsx:63-95 | a prefixed object id is invalid as it stands and resolves from either source to the bare valid id |
| VerifyCleanup.PreflightError | app/verify-cleanup/page.tsx:187-204 | no error exactly when the id is present, is an object id and an image is chosen; otherwise the first failing guard's message |
| VerifyCleanup.PreflightMessagesDistinct | app/verify-cleanup/page.tsx:188-202 | the three guard messages are pairwise different |
| VerifyCleanup.ClassifyReply | app/verify-cleanup/page.tsx:244-285 | accepted exactly for an object-like body; a throw, a not-ok status and any other body each fail with their own message; an accepted result carries the body's four fields, and completeness is whether all four are present |
| VerifyCleanup.CompleteReplyFillsResult | app/verify-cleanup/page.tsx:260-275 | a complete accepted result has all four fields |
| VerifyCleanup.ObjectReplyAccepted | app/verify-cleanup/page.tsx:256-275 | an object with the four keys is accepted completely with exactly their values |
| VerifyCleanup.ImprovementBand | app/verify-cleanup/page.tsx:663-667 | excellent iff p >= 90, good progress iff 50 <= p < 90, minimal iff p < 50 |
| VerifyCleanup.BandMessage | app/verify-cleanup/page.tsx:663-667 | the sentence shown for each band |
| VerifyCleanup.AssessmentText | app/verify-cleanup/page.tsx:663-667 | each of the three sentences under the bar is shown exactly on its range of the percentage |
| VerifyCleanup.BandMonotone | app/verify-cleanup/page.tsx:663-667 | a larger improvement never gets a worse band |
| VerifyCleanup.StatusClass | app/verify-cleanup/page.tsx:288-299 | each known status (after lower-casing) gets its classes, iff; every other status gets the slate default |
| VerifyCleanup.SeverityClass | app/verify-cleanup/page.tsx:301-314 | each known severity (after lower-casing) gets its classes, iff; every other severity gets the slate default |
| VerifyCleanup.ClassesIgnoreCase | app/verify-cleanup/page.tsx:288-314 | spellings that differ only in case get the same status and severity classes |
| VerifyCleanup.PlaceholderReport | app/verify-cleanup/page.tsx:142-153 | the placeholder has the requested id, the current time, status "pending", severity "unknown" and the fixed texts |
| VerifyCleanup.PlaceholderRendersNeutral | app/verify-cleanup/page.tsx:142-153 | the placeholder renders with the neutral default badges |
| VerifyCleanup.VerifyCleanupPage.constructor | app/verify-cleanup/page.tsx:51-59 | the page starts with no id, image, preview, result or report, and nothing loading |
| VerifyCleanup.VerifyCleanupPage.ResolveReportId | app/verify-cleanup/page.tsx:63-89 | the id becomes the selected id, or stays when none is found |
| VerifyCleanup.VerifyCleanupPage.CheckReportIdFormat | app/verify-cleanup/page.tsx:92-108 | a truthy malformed id sets the invalid-id error; otherwise the error is unchanged |
| VerifyCleanup.VerifyCleanupPage.LoadReport | app/verify-cleanup/page.tsx:111-163 | with an id, a fetched report is stored, and a failure stores the placeholder and the load error; loading ends false |
| VerifyCleanup.VerifyCleanupPage.HandleImageUpload | app/verify-cleanup/page.tsx:165-172 | a chosen file becomes the image and preview, and the result is cleared |
| VerifyCleanup.VerifyCleanupPage.HandleReset | app/verify-cleanup/page.tsx:174-182 | image, preview, result and error are cleared; a preview URL in use is released |
| VerifyCleanup.VerifyCleanupPage.HandleSubmit | app/verify-cleanup/page.tsx:184-286 | a failing guard sets its error and sends nothing; otherwise one request is sent, and the classified reply sets the error or the result; loading ends false |
| VerifyCleanup.VerifyCleanupPage.SubmitEnabled | app/verify-cleanup/page.tsx:481 | the submit button is enabled when nothing is loading and an image is chosen |
| VerifyCleanup.EnabledSubmitPassesImageGuard | app/verify-cleanup/page.tsx:481 | through the enabled button, the image guard never fires |
| Wallet.RedeemEnabled | app/wallet/page.tsx:314-316 | a benefit's button is disabled exactly when the shown balance, 0 without a wallet, is below its cost |
| Wallet.ConfirmEnabled | app/wallet/page.tsx:434-438 | the confirm button is also disabled while a redemption runs |
| Wallet.RedeemEnabledExactly | app/wallet/page.tsx:314-316 | the button is enabled iff the balance covers the cost, including at equality; with no wallet, only free benefits |
| Wallet.ConfirmGate | app/wallet/page.tsx:138-144 | ignored iff no selection or no wallet, refused iff the balance is below the cost, allowed iff it covers the cost |
| Wallet.GateAgreesWithButton | app/wallet/page.tsx:314-316 | with a wallet, the handler's guard allows a benefit exactly when its button is enabled |
| Wallet.Debit | app/wallet/page.tsx:167-185 | balance down and total spent up by the cost; identity, creation time and earnings kept; their sum conserved; a covered balance stays non-negative |
| Wallet.RedeemAll | app/wallet/page.tsx:137-191 | over any run of guarded redemptions, the sum of balance and spending is conserved, a non-negative balance stays non-negative, and a balanced ledger stays balanced |
| Wallet.FallbackBenefits | app/wallet/page.tsx:76-109 | four benefits with the fixed ids, costs 500, 1000, 2000 and 750, and validity 30, 60, 90 and 45 days |
| Wallet.FallbackWallet | app/wallet/page.tsx:111-119 | the demo wallet: balance 1500, earned 2500, spent 1000, balanced, with the two time stamps as given |
| Wallet.FallbackRedeemable | app/wallet/page.tsx:76-119 | on the demo data, every benefit except the 2000-coin one is redeemable |
| Wallet.WalletPage.constructor | app/wallet/page.tsx:39-47 | the page starts loading, with no data, modal, selection or flags |
| Wallet.WalletPage.FetchData | app/wallet/page.tsx:53-126 | loading succeeds when the benefits arrive and the wallet request does not throw, and a not-ok wallet response leaves the wallet as it was; any throw installs the demo data and the error; loading ends false |
| Wallet.WalletPage.InstallFallback | app/wallet/page.tsx:71-119 | the error is set and the demo benefits and wallet are installed |
| Wallet.WalletPage.HandleRedeem | app/wallet/page.tsx:129-134 | the modal opens on the benefit with no success and no error |
| Wallet.WalletPage.ConfirmRedemption | app/wallet/page.tsx:137-191 | with no selection or wallet, nothing changes; a short balance sets only the error; otherwise one request is sent and, on success or failure, the wallet is debited and success is shown; the balance-plus-spending sum is conserved and the balance stays non-negative |
| Wallet.WalletPage.CloseModal | app/wallet/page.tsx:194-198 | the modal hides, and the selection and error are cleared |
| Wallet.WalletPage.ConfirmButtonEnabled | app/wallet/page.tsx:434-438 | the modal's confirm button for the selected benefit is enabled |
| Wallet.EnabledConfirmIsAllowed | app/wallet/page.tsx:434-438 | pressing an enabled confirm button with a wallet loaded always sends the request |
| Report.LabelOf | app/report/page.tsx:532-537 | a string element is its own label; an object gives its type, plus its confidence exactly when that is truthy |
| Report.LabelsOf | app/report/page.tsx:526-527 | one label per element, in order |
| Report.TrimmedLabels | app/report/page.tsx:541-548 | one trimmed label per piece, in order, without confidence |
| Report.NormalizeLabels | app/report/page.tsx:526-555 | an array maps element by element; a string gives comma count + 1 trimmed pieces; any other value gives the single label `String(value)` |
| Report.Texts | app/report/page.tsx:532-553 | the rendered texts of the labels, in order |
| Report.TrimmedPiecesAreNames | app/report/page.tsx:526-548 | pieces without outer whitespace normalise to the same labels as an array of those strings |
| Report.ShapesAgree | app/report/page.tsx:526-555 | for comma-free, trimmed labels, the comma string normalises to exactly the labels of the array of strings, and the array of objects gives the same texts |
| Report.Shown | app/report/page.tsx:517 | the waste-types section is shown when the field has a length above 0 |
| Report.RecyclablesShown | app/report/page.tsx:560-561 | the recyclables section is shown when the field is present and has a length above 0 |
| Report.ShownSectionsHaveLabels | app/report/page.tsx:517-561 | a shown section has at least one label; empty strings and arrays are hidden, and so is a value without a length |
| Report.ShownRecyclablesHaveLabels | app/report/page.tsx:560-561 | an absent recyclables field is hidden, and a shown one has at least one label |
| Report.ChipAsWritten | app/report/page.tsx:532-537 | the chip has the label's text and badge, and the stray text "0" exactly for an object with confidence 0 |
| Report.ChipOf | app/report/page.tsx:532-537 | a normalised label's chip has its text and badge and no stray text |
| Report.ZeroConfidenceChip | app/report/page.tsx:533-537 | a zero confidence shows a stray "0" as written but not once normalised; all other elements render the same either way |
| Report.SeverityDot | app/report/page.tsx:503-511 | green iff "Clean", yellow iff "Low", orange iff "Medium", red for everything else, matched case-sensitively |
| Report.ReportPage.constructor | app/report/page.tsx:53-71 | the page starts in camera mode, with no image, location, result, stream or tracks, stamped with the mount time |
| Report.ReportPage.ApplyGeolocation | app/report/page.tsx:69-98 | a resolved position becomes the location (with "Unknown Location" when no name came back); each failure sets its own error |
| Report.ReportPage.SetUploadMode | app/report/page.tsx:243-257 | only the mode changes |
| Report.ReportPage.EditDescription | app/report/page.tsx:402 | the description becomes the typed text |
| Report.ReportPage.StartCamera | app/report/page.tsx:100-123 | an acquired stream becomes the current one, the camera shows and its tracks are recorded; a refusal sets the camera error and hides the camera |
| Report.ReportPage.StopCamera | app/report/page.tsx:125-136 | every track of the previous stream is stopped, the stream is null and the camera is hidden; with no stranded track before, none is left running |
| Report.ReportPage.CaptureImage | app/report/page.tsx:145-166 | a captured frame becomes the image and preview, clears the result and stops the camera; without a frame nothing changes |
| Report.ReportPage.HandleImageUpload | app/report/page.tsx:168-175 | a chosen file becomes the image and preview and clears the result |
| Report.ReportPage.SubmitDisabled | app/report/page.tsx:441 | the submit button is disabled without an image, without a location, or while loading |
| Report.EnabledSubmitIsReady | app/report/page.tsx:441 | the submit button is enabled exactly when an image and a location are present and nothing is loading, so an enabled press passes the submit guard |
| Report.ReportPage.HandleSubmit | app/report/page.tsx:177-208 | without an image and a location nothing changes; otherwise one report with image, location, description and timestamp is sent, and the reply sets the result, or the one fixed failure message; loading ends false |
| Report.ReportPage.UnmountAsWritten | app/report/page.tsx:139-143 | the cleanup stops no track |
| Report.ReportPage.UnmountReleasing | app/report/page.tsx:125-143 | the corrected cleanup leaves every obtained track stopped |
| Report.ReportPage.SetUploadModeReleasing | app/report/page.tsx:243-257 | the corrected mode switch sets the mode and leaves every obtained track stopped |
| Report.ReportPage.StartCameraReleasing | app/report/page.tsx:100-123 | the corrected start stops every earlier track before taking the new stream, so no track is ever stranded |
| Report.UnmountLeavesCameraLive | app/report/page.tsx:100-143 | after a start and the unmount as written, the track is still live |
| Report.ModeSwitchLeavesCameraLive | app/report/page.tsx:257 | after a start and a switch to the gallery, the track is still live |
| Report.RestartStrandsFirstTrack | app/report/page.tsx:100-136 | after two starts and a stop, the first track is still live and the page no longer holds a stream |
| Report.ReleasingVariantsStopCamera | app/report/page.tsx:100-143 | with the corrected start and unmount, both tracks end stopped |

## Left out

- Every `fetch` is a parameter: its URL, its request body (JSON or multipart) and its status handling. The model keeps only the outcomes the code tells apart: a throw, a response that is not ok, or data.
- Geolocation and the reverse-geocoding lookup are left out as browser and foreign services. `ApplyGeolocation` gets their combined outcome.
- Camera hardware, `getUserMedia`, the video element, canvas drawing, `toBlob` and object URLs are left out. Tracks carry only a live flag. A captured frame and a preview URL are parameters.
- The formatting of `lat,lng` into the form field is left out (floating point). `Submission` keeps the location itself.
- The percentage bar width and all other JSX, styling, icons and animation are left out.
- Async interleaving of effects and React's batching and re-renders are left out. Each handler runs as one atomic step, with the request's outcome given.
- Wallet.WalletPage.CloseModal: the delayed `setTimeout` reset of the success flag (app/wallet/page.tsx:200-204) is not modelled, because it is a timer. The flag is left as it was.
- Strings.ToLower: only ASCII letters are lowered, because the statuses and severities compared are ASCII. Full Unicode case mapping is not modelled.
- Strings are sequences of Unicode scalar values. JavaScript's UTF-16 code units are not modelled, since nothing here depends on them.
- Coin amounts (costs, balance, totals) are mathematical integers, while the page holds them as JavaScript numbers (doubles). The two agree on whole numbers up to 2^53. The demo amounts are whole numbers far below that, and coin counts are whole by design, so the model takes every amount to be whole; under that reading the conservation and non-negativity results carry over to the page. Fractional amounts, whose sums would round, are not modelled.
- JSON values are taken as they arrive: numeric coercion in comparisons such as `improvement_percentage >= 90` is not modelled. `ImprovementBand` takes a real number.
- Console logging and warnings are not modelled, because they only reach the console. The missing-fields warning in the verify handler is not emitted either; the condition that triggers it is kept as the `complete` flag of an accepted reply.
- The debugging buttons on the verification page ("Use Sample Report" and the API test button) are left out. They are development aids without decision logic.
- An object with its own `length` property is not modelled, so the `String(value)` branch is shown for no value. A null `waste_types`, which crashes the page, is not modelled either.
- The other pages (`app/waste-deposits`, `app/login`, `app/profile` and the landing page) are not part of this model. They hold map rendering, redirects and storage I/O with no decision logic.

## Findings

| source | as written | input that shows it | evidently intended | confidence | as-written member | corrected member |
|---|---|---|---|---|---|---|
| app/report/page.tsx:533-537 | `type.confidence && <badge/>` renders the number 0 as text for a zero confidence | an array element `{type: "plastic", confidence: 0}` | no badge and no stray text for a zero confidence | not executed; high | Report.ChipAsWritten | Report.ChipOf |
| app/report/page.tsx:139-143 | the unmount cleanup closes over the first render's `stopCamera`, whose `stream` is null, so no track is stopped | open the camera, then leave the page | the current stream's tracks are stopped on unmount | not executed; high | Report.UnmountLeavesCameraLive | Report.ReportPage.UnmountReleasing |
| app/report/page.tsx:100-123 | `startCamera` replaces an open stream without stopping it | pick a gallery image, switch to camera mode, press the retake button twice | the open stream is stopped before a new one is taken | not executed; medium | Report.RestartStrandsFirstTrack | Report.ReportPage.StartCameraReleasing |
| app/report/page.tsx:243-257 | switching to gallery mode leaves an open camera running with its view hidden | open the camera, then press "Gallery" | the camera is released on a mode switch | not executed; medium | Report.ModeSwitchLeavesCameraLive | Report.ReportPage.SetUploadModeReleasing |
