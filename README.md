# Custom 3D shoe designer: wizard state machines in Dafny

This project models the logic underneath a five-screen browser wizard
(home, foot scan, design studio, 3D preview, download) and proves what that
logic promises. Each screen is a React component whose state is a handful
of fields changed by event handlers; each becomes a Dafny module with a
class holding those fields, pure step functions over a value copy of the
state, and lemmas about the step functions.

- `FootScannerPage` (foot_scanner.dfy): the capture sequencer. A cursor over
  four fixed angles (top, side-left, side-right, front) and the ordered list
  of captured photos. A capture appends and advances; a capture at the last
  angle stops the camera and hands the whole list to the wizard; a retake
  drops the last photo and rewinds. The cursor equals the photo count until
  completion, so the wizard always receives exactly four photos, in order.
- `App` (app.dfy): the wizard navigator. A step cursor, the stored photos and
  the stored design record, the completion handlers that set them, and the
  render selection (loading screen, sign-in screen, or header plus at most
  one wizard screen). The header's step buttons jump to any step unguarded.
- `DownloadPage` (download.dfy): the simulated file generation. The interval
  callback adds 10 to the progress until it reaches 100 and then, on the
  11th call, publishes the four placeholder file names and stops.
- `PreviewPage` (preview.dfy): rotation in 15 degree steps, the clamped zoom,
  reset, the print specification values and the camelCase key to label
  transform (a space before each upper-case letter, then trim).
- `DesignStudioPage` (design_studio.dfy): the six selections with their option
  tables and slider grids, the design record snapshotted from them, and the
  material display name shared by the preview and download screens.

Photos are opaque strings (the data URL the canvas produces). The record's
timestamp, the camera's answer to a permission request, whether a 2D canvas
context was obtained, and the signed-in user are parameters.

Navigation is not forward-only. `handleStepChange` (src/App.tsx:34-36) is
wired to every header button (src/components/layout/Header.tsx:39) and sets
any step unguarded. The prerequisites are checked only when rendering, so a
jump to a step whose artifact is missing leaves the main area empty
(`App.HeaderJumpIsUnguarded`). Camera errors are only logged, and there is
no upload path. A photo is a bare string; its slot is its position in the
list.

## Model

| member | source | states |
|---|---|---|
| FootScannerPage.Stopped | src/pages/FootScannerPage.tsx:66-72 | closing the camera always leaves capturing off and no stream, and keeps cursor and photos |
| FootScannerPage.StopIdempotent | src/pages/FootScannerPage.tsx:66-72 | stopping the camera twice is the same as stopping once |
| FootScannerPage.Started | src/pages/FootScannerPage.tsx:47-64 | opening the camera: a granted request starts capturing with the stream open, a refused one changes nothing, and cursor and photos are always kept; `Scanner.StartCamera` is its in-place form |
| FootScannerPage.Capture | src/pages/FootScannerPage.tsx:74-98 | a capture: without capturing or a 2D context nothing changes; otherwise the frame is appended; before the last angle the cursor advances and capturing goes on; at the last angle (and only there) the camera stops, the cursor stays, and the whole list is handed over; `ApplyKeepsCursor` and `RunKeepsCursor` are its partner invariants |
| FootScannerPage.Retake | src/pages/FootScannerPage.tsx:100-106 | a retake: the last photo is dropped (an empty list stays empty), the cursor moves back only when positive, the camera fields are kept, and a state with the cursor in step and a photo to drop stays in step |
| FootScannerPage.DropLast | src/pages/FootScannerPage.tsx:101 | `slice(0, -1)` removes exactly the last photo; on an empty list the result is empty |
| FootScannerPage.ApplyKeepsCursor | src/pages/FootScannerPage.tsx:74-106 | any single event keeps the cursor equal to the photo count, or completes with cursor 3, four photos, camera off and the hand-over equal to the stored list; the photo list changes only by a successful shot (append) or a retake (drop last) |
| FootScannerPage.RunKeepsCursor | src/pages/FootScannerPage.tsx:87-105 | over any sequence of starts, stops, shots and retakes, the cursor equals the photo count until completion; a completion hands over exactly four photos, and those are the net result of the shots and retakes that led there |
| FootScannerPage.ShotsHandOverInOrder | src/pages/FootScannerPage.tsx:87-95 | shooting the remaining slots hands over the earlier photos followed by the new ones in capture order, on the last shot |
| FootScannerPage.FourShotsFromStart | src/pages/FootScannerPage.tsx:13-16 | from the initial state, opening the camera and four shots hand exactly those four photos over |
| FootScannerPage.Progress | src/pages/FootScannerPage.tsx:108 | the progress bar value is 25 per photo, one of 0, 25, 50, 75, 100 for up to four photos, and 100 exactly when all four are taken |
| FootScannerPage.StepLabel | src/pages/FootScannerPage.tsx:118 | "Step n of 4" shows the next slot to fill, between 1 and 4, while the cursor is in step |
| FootScannerPage.CurrentAngle | src/pages/FootScannerPage.tsx:130 | the instruction card always finds the cursor's angle before and at completion |
| FootScannerPage.RowMarker | src/pages/FootScannerPage.tsx:245-256 | a row is checked when its photo exists, active when it is the cursor's, waiting otherwise; its contract in cursor terms is `RowsFollowCursor` |
| FootScannerPage.RowEmphasised | src/pages/FootScannerPage.tsx:258-260 | a row title is dark when its index is at most the cursor; `RowsFollowCursor` ties it to the non-waiting rows |
| FootScannerPage.RowsFollowCursor | src/pages/FootScannerPage.tsx:243-262 | rows before the cursor are checked, the cursor's row is the single active one, later rows wait, and exactly the checked and active rows are emphasised |
| FootScannerPage.Scanner.constructor | src/pages/FootScannerPage.tsx:13-16 | the screen starts at step 0 with no photos and the camera off |
| FootScannerPage.Scanner.StartCamera | src/pages/FootScannerPage.tsx:47-64 | a granted request opens the stream and starts capturing; a refused one changes nothing |
| FootScannerPage.Scanner.StopCamera | src/pages/FootScannerPage.tsx:66-72 | capturing off and the stream cleared, cursor and photos kept |
| FootScannerPage.Scanner.CapturePhoto | src/pages/FootScannerPage.tsx:74-98 | without the video element or a 2D context nothing changes; otherwise the photo is appended, the cursor advances by one below step 3, and at step 3 the cursor stays, the camera stops and the new list is handed over |
| FootScannerPage.Scanner.RetakePhoto | src/pages/FootScannerPage.tsx:100-106 | exactly the last photo is removed (none on an empty list) and the cursor moves back only when positive |
| App.MainPages | src/App.tsx:100-126 | at most one wizard screen is mounted; home and scanner exactly at their steps; design exactly at its step with a non-empty photo list; preview and download exactly at their steps with a stored design; otherwise the main area is empty |
| App.Render | src/App.tsx:56-128 | loading wins; a signed-out user sees only the sign-in screen; the wizard, with the header on the current step and the main area showing `MainPages` of the current step and artifacts, is shown exactly when loaded and signed in |
| App.Handle | src/App.tsx:34-54 | each callback moves the cursor to its fixed target (the header to the clicked step); only the scan hand-over replaces the photos and only the design hand-over replaces the design; the `Wizard` handlers are its in-place form and `ScreenEventsKeepPrepared` its invariant |
| App.ScreenEventsKeepPrepared | src/App.tsx:38-54 | driven only by the screens' own completion callbacks, the wizard never reaches a step without its prerequisite artifact, and the main area always shows exactly one screen |
| App.HeaderJumpIsUnguarded | src/App.tsx:34-36 | a header click sets any step from any state, so from the start a jump to preview renders nothing and a jump to design leaves its prerequisite missing |
| App.Wizard.constructor | src/App.tsx:19-23 | starts loading, signed out, at home, with no photos and no design |
| App.Wizard.OnAuthStateChanged | src/App.tsx:26-32 | the auth callback sets user and loading and leaves the wizard state alone |
| App.Wizard.HandleStepChange | src/App.tsx:34-36 | sets the given step, unguarded, and nothing else |
| App.Wizard.HandleGetStarted | src/App.tsx:38-40 | goes to the scanner and changes nothing else |
| App.Wizard.HandleScanComplete | src/App.tsx:42-45 | stores the photos and goes to design; a stored design is untouched |
| App.Wizard.HandleDesignComplete | src/App.tsx:47-50 | stores the design and goes to preview; the photos are untouched |
| App.Wizard.HandlePreviewComplete | src/App.tsx:52-54 | goes to download and changes nothing else |
| DownloadPage.Generate | src/pages/DownloadPage.tsx:78-83 | the generate handler: generating, progress 0, interval live, published files kept; `Generator.HandleGenerateFiles` is its in-place form |
| DownloadPage.Ticks | src/pages/DownloadPage.tsx:83-93 | n interval periods: nothing happens with no period or a cleared interval; while the interval stays live, files and flag are kept and progress never falls; when a live interval is cleared, progress is 100, generation has stopped and the four files are published; `TicksFromStart` gives its closed form |
| DownloadPage.Tick | src/pages/DownloadPage.tsx:84-92 | below 100 a callback adds exactly 10 and changes nothing else; at 100 or more it keeps 100, stops generating, publishes the four file names in order and clears the interval |
| DownloadPage.TicksFromStart | src/pages/DownloadPage.tsx:78-93 | after starting, n callbacks give progress 10n with nothing published for n up to 10; from the 11th on, progress 100, not generating, the four files, interval cleared |
| DownloadPage.TicksStep | src/pages/DownloadPage.tsx:83-93 | the last of n + 1 interval periods runs one more callback while the interval is live |
| DownloadPage.ProgressOnGrid | src/pages/DownloadPage.tsx:84-92 | during a generation progress stays within 0..100 on multiples of 10 |
| DownloadPage.FilesAppearOnEleventhTick | src/pages/DownloadPage.tsx:85-91 | the file list is non-empty exactly from the 11th callback on |
| DownloadPage.ShownPanels | src/pages/DownloadPage.tsx:140-175 | idle panel exactly when not generating and no files; progress panel exactly when generating; file list exactly when files exist |
| DownloadPage.OnePanelAtATime | src/pages/DownloadPage.tsx:140-175 | the idle panel shows initially, and at every point of a generation exactly one panel shows, the file list exactly from the 11th callback |
| DownloadPage.MockFile | src/pages/DownloadPage.tsx:96-108 | the mock download is named after the file and its content is "Mock " + name + " content", from which the name reads back |
| DownloadPage.DownloadAll | src/pages/DownloadPage.tsx:110-114 | whatever order the random delays give, each of the four files is downloaded |
| DownloadPage.SummaryMaterial | src/pages/DownloadPage.tsx:300-301 | the summary shows "Flexible TPU" for flexible, "Rigid PLA" for rigid, "Textured PETG" for anything else |
| DownloadPage.Generator.constructor | src/pages/DownloadPage.tsx:15-17 | starts at progress 0, not generating, no files |
| DownloadPage.Generator.HandleGenerateFiles | src/pages/DownloadPage.tsx:78-94 | sets generating, resets progress to 0 and starts the interval |
| DownloadPage.Generator.OnTick | src/pages/DownloadPage.tsx:84-92 | the interval callback, field by field as `Tick` |
| PreviewPage.Rotate | src/pages/PreviewPage.tsx:34-39 | only the chosen axis moves, by 15 degrees per step of direction; the other axis and the zoom are kept |
| PreviewPage.RotateBackRestores | src/pages/PreviewPage.tsx:34-39 | a rotation by +1 then -1 on the same axis, or the reverse, restores the view |
| PreviewPage.ZoomBy | src/pages/PreviewPage.tsx:41-43 | zoom stays within [0.5, 3]; inside that range it moves by 0.2 per step; outside it is clamped to the nearer bound |
| PreviewPage.Reset | src/pages/PreviewPage.tsx:45-48 | the reset button gives rotation (0, 0) and zoom 1 whatever the view; `Viewer.ResetView` is its in-place form |
| PreviewPage.ResetIdempotent | src/pages/PreviewPage.tsx:45-48 | reset gives rotation (0, 0) and zoom 1 from any view, and resetting twice is resetting once |
| PreviewPage.SpaceBeforeUpper | src/pages/PreviewPage.tsx:247 | the regex replace makes the key exactly one character longer per upper-case letter |
| PreviewPage.SpaceBeforeUpperKeepsText | src/pages/PreviewPage.tsx:247 | the replace inserts only spaces: removing spaces gives the same as before, no other white space appears, the last character stays and so does a first character that is not upper-case |
| PreviewPage.TrimStart | src/pages/PreviewPage.tsx:247 | the result is a suffix of the input, starts with no white space, and only white space was dropped |
| PreviewPage.TrimEnd | src/pages/PreviewPage.tsx:247 | the result is a prefix of the input, ends with no white space, and only white space was dropped |
| PreviewPage.Trim | src/pages/PreviewPage.tsx:247 | the trimmed label neither starts nor ends with white space, is no longer than its input, and a string without outer white space is unchanged; `TrimKeepsMiddle` says which text it keeps |
| PreviewPage.TrimKeepsMiddle | src/pages/PreviewPage.tsx:247 | the trimmed string is a contiguous slice of the input, and every character before and after that slice is ECMAScript white space: exactly the outer white space is removed |
| PreviewPage.TrimRemovesOnlySpaces | src/pages/PreviewPage.tsx:247 | when the only white space is the plain space, trimming removes spaces only |
| PreviewPage.Label | src/pages/PreviewPage.tsx:247 | the row label `key.replace(/([A-Z])/g, ' $1').trim()`: it never starts or ends with white space and is at most one character per capital longer than the key; `LabelKeepsKey`, `CamelCaseLabel` and `TwoWordLabel` say which text it holds |
| PreviewPage.LabelKeepsKey | src/pages/PreviewPage.tsx:247 | a label never starts or ends with white space; deleting spaces from it gives back the key with its spaces deleted, and for a key without white space the key itself |
| PreviewPage.CamelCaseLabel | src/pages/PreviewPage.tsx:270 | for a camelCase key nothing is trimmed, and the label is one character longer per upper-case letter |
| PreviewPage.TwoWordLabel | src/pages/PreviewPage.tsx:244-248 | a key made of a lower-case run, one capital and another lower-case run becomes the two runs separated by a space |
| PreviewPage.ArchHeightLabel | src/pages/PreviewPage.tsx:17-23 | the measurement key "archHeight" is shown as "arch Height" |
| PreviewPage.SpecificationsFor | src/pages/PreviewPage.tsx:25-32 | the specification card maps flexible to "Flexible TPU", rigid to "Rigid PLA" and anything else to "Textured PETG", with the fixed print values |
| PreviewPage.Viewer.constructor | src/pages/PreviewPage.tsx:13-14 | starts at rotation (0, 0) and zoom 1 |
| PreviewPage.Viewer.HandleRotate | src/pages/PreviewPage.tsx:34-39 | changes only the chosen axis, by direction times 15 |
| PreviewPage.Viewer.HandleZoom | src/pages/PreviewPage.tsx:41-43 | the zoom after a click lies in [0.5, 3]; the rotation is kept |
| PreviewPage.Viewer.ResetView | src/pages/PreviewPage.tsx:45-48 | rotation (0, 0) and zoom 1 |
| DesignStudioPage.Find | src/pages/DesignStudioPage.tsx:339 | the lookup finds an entry exactly when the id is in the table, and the entry found is the first one with that id |
| DesignStudioPage.MaterialLabel | src/pages/PreviewPage.tsx:27 | "Flexible TPU" exactly for flexible, "Rigid PLA" exactly for rigid, "Textured PETG" for every other value |
| DesignStudioPage.MaterialLookupAgrees | src/pages/DesignStudioPage.tsx:46-65 | every material id in the table has a name, and it equals the label the preview and download screens show |
| DesignStudioPage.Thumbnails | src/pages/DesignStudioPage.tsx:384 | at most the first four photos are shown, in order |
| DesignStudioPage.GenerateTwiceDiffersOnlyInTimestamp | src/pages/DesignStudioPage.tsx:79-89 | two records generated from unchanged selections differ only in their timestamps |
| DesignStudioPage.Studio.constructor | src/pages/DesignStudioPage.tsx:15-20 | starts at athletic, flexible, #2563EB, heel 15, arch 50, rounded, all within their domains (heel 15 and arch 50 on their sliders' grids) |
| DesignStudioPage.Studio.SelectStyle | src/pages/DesignStudioPage.tsx:135 | sets the style to a table id and leaves every other selection alone |
| DesignStudioPage.Studio.SelectMaterial | src/pages/DesignStudioPage.tsx:178 | sets the material to a table id and leaves every other selection alone |
| DesignStudioPage.Studio.SelectColor | src/pages/DesignStudioPage.tsx:223 | sets the colour to a palette entry and leaves every other selection alone |
| DesignStudioPage.Studio.SelectToeShape | src/pages/DesignStudioPage.tsx:301 | sets the toe shape to a table id and leaves every other selection alone |
| DesignStudioPage.Studio.SetHeelHeight | src/pages/DesignStudioPage.tsx:254-259 | stores the slider's value (5..50 in steps of 5) and leaves every other selection alone |
| DesignStudioPage.Studio.SetArchSupport | src/pages/DesignStudioPage.tsx:273-278 | stores the slider's value (0..100 in steps of 10) and leaves every other selection alone |
| DesignStudioPage.Studio.GenerateDesign | src/pages/DesignStudioPage.tsx:79-91 | the record copies each selection field for field, the sliders' first thumbs, the photos prop unchanged and the given time, and every field lies in its domain |
| DesignStudioPage.Studio.SummaryMaterial | src/pages/DesignStudioPage.tsx:339 | the summary's material name is never missing and equals the shared material label |

## Left out

- Camera plumbing: `getUserMedia`, `srcObject`, `drawImage`, `toDataURL` and the canvas size. A photo is an opaque string; a camera request is a granted or refused flag; camera errors are only logged by the source.
- The authentication client and its subscription: only the `user` and `loading` values it delivers are modelled, as inputs to `App.Wizard.OnAuthStateChanged`.
- Timers: the 300 ms interval is modelled by its callback and a `ticking` flag for "the interval is live"; the random delays of "download all" become the `firing` order parameter of `DownloadPage.DownloadAll`.
- DOM download mechanics: anchor creation, `click`, the `data:` URL prefix and `encodeURIComponent`.
- PreviewPage.ZoomBy: computed on exact reals, so the floating-point rounding of repeated `+ 0.2` steps is not modelled; the `Math.round(zoom * 100)` percentage display is not modelled.
- The preview's `viewMode` state: its setter is never called, so it is always "3d" and has no behaviour.
- `Date.now()`: the record's timestamp is a parameter.
- Markup, styling, icons and static text tables (tips, printer settings, measurement values).
- src/pages/HomePage.tsx and src/components/layout/Header.tsx: presentation only; the header's step click is modelled through `App.Wizard.HandleStepChange`, and its `isCompleted` is a constant `false`.
- Slider enforcement lives in the Slider component, which is not part of this model: `DesignStudioPage.Studio.SetHeelHeight` and `SetArchSupport` take its grid as a precondition.
- The design record is untyped (`any`) in App.tsx; it is modelled as the record the design studio builds.
