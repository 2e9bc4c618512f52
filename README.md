# YourDrugs decision logic in Dafny

YourDrugs is a small SwiftUI app with a health-profile form, a barcode scan screen, and a function that asks a language model, through OpenRouter, whether a medicine suits given allergies and conditions. In the files of the repository these pieces are not wired together:
- nothing calls `analyzeDrugSafety`;
- nothing shows `APIKeyAlertView`;
- the navigation list links to `HealthInfoView`, whose Save button does nothing, not to `HealthFormView`;
- the scan screen's verdict comes only from the fixed table in `checkForWarnings`. The scan path never reads the health profile and never asks the language model;
- `ScanView` shows only `resultText`: `scannedCode` is written on a successful scan but never displayed or read.

Most of the app is UI, camera, network, Keychain and Core Data plumbing. This project models the decision logic and state updates inside that plumbing and proves properties about them:

- `ClaudeAnalyzer` (file `claude_analyzer.dfy`) covers `analyzeDrugSafety`, `getAPIKey` and `storeApiKeyInKeychain`. It contains:
  - the prompt template and the request body (`max_tokens` 300, model `anthropic/claude-3-sonnet`, one user message);
  - the POST request, whose bearer token comes from the Keychain;
  - the total mapping from the response outcome (no data, undecodable, decoded choices) to the one string passed to `completion`;
  - the Keychain as a map keyed by (service, account).
- `ScanScreen` (file `scan_screen.dfy`) covers `ScanView`'s three `@State` fields and the handlers that assign them. It also has the hard-coded `checkForWarnings` table, the coordinator that turns `didFind`/`didFail` into `Result` values, and the rule in `metadataOutput` that only the first metadata object counts.
- `HealthForm` (file `health_form.dfy`) covers the replace-all `saveHealthInfo` over the Core Data context and the "Latest data" section.
- `Wrappers` (file `wrappers.dfy`) defines `Option`, which stands for Swift's optionals.

The Keychain read and write outcomes, the network outcome and the Core Data save outcome are parameters (`readOk`, `writeOk`, `outcome`, `saveSucceeds`). The two `fatalError` calls in `getAPIKey` become the outcomes `FatalNoKey` and `FatalReadError`. When either happens, `AnalyzeDrugSafety` returns `Crashed`, and no request is sent.

The code does not classify replies, validate barcodes, look up products or cancel scans. An empty reply content is passed through unchanged, a missing key ends the process, and `checkForWarnings` is a fixed one-entry table.

Core Data detail: `@FetchRequest` lists the objects of the managed object context, pending changes included. The model therefore keeps two sequences:
- `context`: what the list and "Latest data" show;
- `persisted`: the last successfully saved store.

After `saveHealthInfo`, the context always holds exactly the one new record. A failed save leaves `persisted` and both input fields unchanged.

## Model

| member | source | states |
|---|---|---|
| `ClaudeAnalyzer.Prompt` | YourDrugs/ClaudeAnalyzer.swift:24-26 | the prompt is the whole fixed template, every piece pinned at its offset: the lead text ending in the opening curly quote, the barcode, the closing curly quote and the text up to "conditions like ", the conditions, " and allergies ", the allergies, and the closing directive text |
| `ClaudeAnalyzer.PromptBarcodeRoundTrip` | YourDrugs/ClaudeAnalyzer.swift:24-26 | reading the text between the curly quotes of the prompt gives back the barcode whenever the barcode holds no closing curly quote |
| `ClaudeAnalyzer.RequestBodyFor` | YourDrugs/ClaudeAnalyzer.swift:28-34 | the body always has `max_tokens` 300, model "anthropic/claude-3-sonnet" and exactly one message, role "user", whose content is the prompt, from which the barcode is recoverable |
| `ClaudeAnalyzer.RequestFor` | YourDrugs/ClaudeAnalyzer.swift:36-40 | the request is a POST to the OpenRouter chat-completions URL carrying the body, with Content-Type "application/json", and its Authorization header parses as "Bearer " followed by exactly the key |
| `ClaudeAnalyzer.CompletionText` | YourDrugs/ClaudeAnalyzer.swift:46-70 | no data gives "No response from server.", an undecodable body "Decode error.", an empty `choices` list "Claude do not respond.", otherwise the first choice's content verbatim (an empty content included) |
| `ClaudeAnalyzer.LaterChoicesIgnored` | YourDrugs/ClaudeAnalyzer.swift:61-62 | choices after the first never change the completion string |
| `ClaudeAnalyzer.ReplyIndistinguishableFromDecodeError` | YourDrugs/ClaudeAnalyzer.swift:59-70 | a model reply reading "Decode error." reaches `completion` exactly as a decode failure does |
| `ClaudeAnalyzer.HandleResponse` | YourDrugs/ClaudeAnalyzer.swift:45-71 | the data-task handler calls `completion` exactly once, with the string `CompletionText` gives |
| `ClaudeAnalyzer.KeyLookup` | YourDrugs/ClaudeAnalyzer.swift:74-85 | the key is returned exactly when the read succeeds and the entry for ("com.yourdrugs.app", "openrouter_api_key") is present and non-empty; a throwing read and a missing or empty entry end in the two distinct fatal outcomes |
| `ClaudeAnalyzer.Keychain.GetAPIKey` | YourDrugs/ClaudeAnalyzer.swift:74-85 | the method returns what `KeyLookup` gives for the current items: a non-empty stored key or a fatal outcome |
| `ClaudeAnalyzer.Keychain.StoreApiKeyInKeychain` | YourDrugs/ClaudeAnalyzer.swift:87-95 | a successful write overwrites the one (service, account) entry with the key; a failed write leaves the items unchanged |
| `ClaudeAnalyzer.StoreThenGet` | YourDrugs/ClaudeAnalyzer.swift:74-95 | after storing a non-empty key, the next successful read returns exactly that key |
| `ClaudeAnalyzer.StoreEmptyThenGet` | YourDrugs/ClaudeAnalyzer.swift:74-95 | after storing the empty string, the next read ends in the "no key" fatal outcome |
| `ClaudeAnalyzer.AnalyzeDrugSafety` | YourDrugs/ClaudeAnalyzer.swift:23-72 | the run crashes before any request exactly when the key lookup fails; otherwise it sends the request built from the stored key and the body for the inputs, and `completion` receives exactly one string, the one `CompletionText` gives for the outcome |
| `ScanScreen.WarningText` | YourDrugs/ContentView.swift:75-84 | code "1234567890123" gives "WARNING: Contain penicillin - do not reccomend with your health conditions.", every other code gives "There no contraindications for using this drug." |
| `ScanScreen.Step` | YourDrugs/ContentView.swift:55-68 | tapping "Scan code" only raises `isShowingScanner`; a success stores the code, closes the sheet and sets the text from `WarningText`; a failure closes the sheet, shows "Scan error. Try again." and keeps the code |
| `ScanScreen.ScannerResultIdempotent` | YourDrugs/ContentView.swift:59-68 | delivering the same scanner result twice leaves the screen as delivering it once |
| `ScanScreen.ReplayScannedCode` | YourDrugs/ContentView.swift:46-68 | from the initial state, `scannedCode` after any sequence of events is the last successfully scanned code, or "" when there is none |
| `ScanScreen.ReplayShowingScanner` | YourDrugs/ContentView.swift:46-68 | the scanner sheet is up exactly when the last event was a tap on "Scan code" |
| `ScanScreen.StepKeepsConsistent` | YourDrugs/ContentView.swift:59-84 | every event keeps the state consistent: `resultText` is the initial text, the scan-error text, or `WarningText` of the stored `scannedCode` |
| `ScanScreen.ReplayConsistent` | YourDrugs/ContentView.swift:46-84 | every state reachable from the initial state is consistent: whenever `resultText` holds a verdict, it is `WarningText` of the stored `scannedCode` |
| `ScanScreen.ScanView.constructor` | YourDrugs/ContentView.swift:46-48 | the initial state is no scanner, code "" and text "Scan drug, to check contraindications." |
| `ScanScreen.ScanView.TapScanCode` | YourDrugs/ContentView.swift:55-57 | the button sets `isShowingScanner` and changes nothing else |
| `ScanScreen.ScanView.CheckForWarnings` | YourDrugs/ContentView.swift:75-84 | sets `resultText` to the table's verdict for the code and leaves the other two fields alone |
| `ScanScreen.ScanView.OnScanResult` | YourDrugs/ContentView.swift:59-68 | the sheet's closure updates the three fields as `Step` says for that result |
| `ScanScreen.Forward` | YourDrugs/ContentView.swift:112-118 | `didFind(code)` becomes `.success(code)` and `didFail(error)` becomes `.failure(error)` |
| `ScanScreen.ForwardBijective` | YourDrugs/ContentView.swift:112-118 | the coordinator's mapping is one-to-one and onto, with `Unforward` as its inverse |
| `ScanScreen.MetadataCall` | YourDrugs/ContentView.swift:175-181 | the delegate hears `didFind` with the string exactly when the first object is a machine-readable code with a string value; otherwise, empty batch included, `didFail` with the "ScanError" error |
| `ScanScreen.OnlyFirstObjectCounts` | YourDrugs/ContentView.swift:175-177 | objects after the first never change the delegate call |
| `ScanScreen.ScannerViewController.MetadataOutput` | YourDrugs/ContentView.swift:172-182 | stops the capture session, then makes exactly one delegate call, the one `MetadataCall` gives, or none when the weak delegate is gone |
| `ScanScreen.ScannerViewController.constructor` | YourDrugs/ContentView.swift:97-100 | a new controller has the coordinator as delegate (or none), a stopped session and no delegate calls yet |
| `ScanScreen.MetadataToScreen` | YourDrugs/ContentView.swift:172-182 | from camera to state: a readable first object's string becomes `scannedCode` and decides `resultText`; an empty batch or unreadable first object sets the scan-error text and keeps the previous `scannedCode` |
| `HealthForm.Without` | YourDrugs/HealthFormView.swift:48 | deleting an object leaves exactly the records of the context other than it: every remaining record came from the context and is not the deleted object, and every other record remains |
| `HealthForm.WithoutKeepsDistinct` | YourDrugs/HealthFormView.swift:48 | deleting an object keeps the remaining identities distinct |
| `HealthForm.HealthFormView.constructor` | YourDrugs/HealthFormView.swift:14-20 | the view starts with the shared context's records listed (which may still hold a failed save's pending changes), the last saved records stored separately, and both input fields "" |
| `HealthForm.WithoutFirst` | YourDrugs/HealthFormView.swift:47-49 | with distinct identities, deleting the first listed record removes exactly that record |
| `HealthForm.HealthFormView.Delete` | YourDrugs/HealthFormView.swift:48 | `viewContext.delete` removes that object from the context; a record is in the new context exactly when it was in the old one and is not the deleted object |
| `HealthForm.HealthFormView.SaveHealthInfo` | YourDrugs/HealthFormView.swift:46-62 | after the delete loop and the insert the context holds exactly one record with the inputs at the time of the call; a successful save persists it and clears both fields, a failed one keeps the stored records and both fields |
| `HealthForm.LatestSection` | YourDrugs/HealthFormView.swift:36-41 | the "Latest data" section appears exactly when the list is non-empty and shows the last record |
| `HealthForm.OrDash` | YourDrugs/HealthFormView.swift:38-39 | a present attribute is shown as its text, a missing one as "-" |
| `HealthForm.OrDashShowsMissing` | YourDrugs/HealthFormView.swift:38-39 | a dash is shown exactly for a missing attribute (or one whose text is "-"); a present value is shown verbatim |
| `HealthForm.LatestAfterSave` | YourDrugs/HealthFormView.swift:51-53 | after a save the section shows the typed allergies and diseases verbatim |

## Left out

- URLSession transport, JSON serialisation and JSONDecoder internals: the response is the abstract `ResponseOutcome`; the `try?` around `JSONSerialization` cannot fail for this fixed dictionary and is not modelled.
- KeychainAccess internals: only the get and set semantics of the one entry, with read and write failure as parameters.
- The asynchrony of the completion callback: the reply handler is a plain method of the response outcome.
- `print` logging throughout, and the text of the `fatalError` messages (only which of the two is reached).
- AVFoundation capture setup in `viewDidLoad` and `viewWillDisappear` (camera I/O), including the three `didFail` calls in `viewDidLoad` (YourDrugs/ContentView.swift:141, 148, 160).
- SwiftUI view bodies and navigation: `ContentView.body`, `HealthInfoView` (whose Save button does nothing), `APIKeyAlertView`, and YourDrugs/YourDrugsApp.swift.
- YourDrugs/Persistence.swift (Core Data container setup) is not part of this model.
- `HealthForm.HealthFormView.SaveHealthInfo`: the fetch request has no sort descriptors, so record order is unspecified; the model appends the new record at the end. Order only matters for "Latest data" after other inserts, since a save always leaves a single record.
- Dismissing the scanner sheet by swiping it down, which SwiftUI writes back through the `isShowingScanner` binding: this is view-layer behaviour, not a handler in the code.
