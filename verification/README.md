# BoxSense capture-and-predict, modelled in Dafny

BoxSense is a small desktop tool. It grabs a still image from a Raspberry Pi
camera server and runs a YOLO detector whose classes include `normal_box` and
`destroyed_box`. It turns the detections into one of three Portuguese verdicts,
shows the verdict, appends it to an in-memory history table, and posts the
verdict with the annotated image to a reporting web API. This project models the
only stateable logic of the program: the handler `capture_and_predict` with its
frame fetch. The model has these parts:

- `Camera.FetchFrame`: the camera request. A frame comes back only for a 200
  response whose body decodes. Anything else, including a transport exception,
  gives `None`.
- `Detection.DetectedClasses`: loading the model, predicting, and mapping the
  first result's box class ids to names. Each exception along the way becomes a
  `Fault`.
- `Classifier.Classify`: the verdict rule. `destroyed_box` beats `normal_box`,
  and anything else is "uncertain".
- `Pipeline.CaptureAndPredict`: one press of the capture button, as a pure step
  from the window state `Ui` and the outside world `Env` to a `Cycle`. A `Cycle`
  holds the new state, the dialogs shown, the report posted, and any escaped
  exception.
- `Session.Run`: a sequence of presses. Lemmas show that the history only grows
  and that every report matches a recorded row.

The camera, file system, detector, image display, clock and HTTP client are
inputs in `Pipeline.Env`. A run of the program is the model applied to one choice
of those inputs.

Points where the code's behaviour is easy to misread, all modelled as written:

- The history row is inserted (script.py:90) before the annotated image is shown
  (script.py:93), so a display failure shows an error and still adds a row.
- The reporting block (script.py:107-137) comes after the `try/finally`. It runs
  on the success path and on the error path. Without a recorded verdict and
  timestamp it raises a name error, which is swallowed. A report therefore goes
  out exactly when the row was recorded and the result image could be opened.
- Clearing the old detections and writing the captured image (script.py:53-57)
  happen before the `try`. If either raises, the exception leaves the handler,
  the `finally` cleanup does not run, and the button stays red (`#d32f2f`). The
  cleanup does not run for these two failures.
- `results[0]` is read at script.py:72, before the `if results` test at
  script.py:76. An empty result list is therefore an index error with an error
  dialog. It is not a "no box" verdict.
- A 200 response whose body the image decoder rejects counts as a failed
  capture, because the decoder returns `None`.

## Model

| member | source | states |
|---|---|---|
| `Classifier.Classify` | script.py:78-83 | the verdict is always one of the three texts; "Caixa danificada" exactly when `destroyed_box` was detected (whether or not `normal_box` was too); "Caixa em boas condições" exactly when `normal_box` was and `destroyed_box` was not; the uncertain text exactly when neither was |
| `Classifier.ClassifyDependsOnlyOnMembership` | script.py:78-83 | two detection lists with the same names give the same verdict, so order and duplicates do not matter |
| `Classifier.ClassifyConcat` | script.py:78-83 | the verdict of two detection lists together is the more severe of their verdicts (damaged over good over uncertain) |
| `Classifier.ClassifyIgnoresUnknownLabels` | script.py:82-83 | adding a name other than the two recognised classes, at either end, leaves the verdict unchanged |
| `Classifier.ClassifySamples` | script.py:78-83 | normal alone gives good condition; destroyed alone, or both, give damaged; nothing gives the uncertain text |
| `Detection.ClassNames` | script.py:76 | the names list succeeds exactly when every box's class id is in the name table; then it has one name per box, in box order; otherwise it fails with a key error naming the first unknown id |
| `Detection.DetectedClasses` | script.py:64-76 | load and predict exceptions propagate with their message; an empty result list is an index error; otherwise the names succeed exactly when all of the first result's box ids are known, with one name per box in order (none for zero boxes) |
| `Detection.Decimal` | script.py:100 | the text of an unknown class id in the error dialog is a non-empty string of decimal digits with no leading zero |
| `Detection.DecimalRoundTrip` | script.py:100 | reading that text back as a decimal number gives the id |
| `Pipeline.FailedFetchIsInert` | script.py:24-46 | a camera request that raised, answered with a status other than 200, or returned an undecodable body, shows exactly the capture error dialog and changes nothing else: same history, button, progress and labels, no report, no escaped exception |
| `Pipeline.DecodedFrameStartsProcessing` | script.py:24-64 | a 200 answer with a decodable image always moves past the capture check: any dialog it shows is a processing-failure dialog ("Erro ao processar a imagem: " followed by the error's text) |
| `Pipeline.CaptureAndPredict` | script.py:41-137 | no frame: one capture-error dialog, state unchanged, no report; save failure: the exception escapes with the button left busy-red and nothing else changed; past the save: the button returns to `#004d40` and progress to 0; the history gains exactly the row (timestamp, verdict of the detected classes) when the cycle reaches the insert and nothing otherwise; no dialog on success and exactly one on every other path except an escaping save failure, which shows none; the status says done or error accordingly; the result label shows "Resultado: " and this cycle's verdict once the row is recorded (also when the image then fails to show) and keeps its previous text when detection raised; a report goes out exactly when the row was recorded and the image was readable, carrying that row's verdict and timestamp. The try/except of script.py:64-101 is the helper `Pipeline.Guarded`, the post-finally block of script.py:107-137 is `Pipeline.Reporting`, and a dialog's error text is `Detection.FaultText`, Python's `str(e)` (the message, "list index out of range" or the unknown id in decimal) |
| `Pipeline.ReportOutcomeIsInvisible` | script.py:127-137 | whatever the reporting API answers, or if the request raises, the history, the rest of the window and the dialogs are the same |
| `Pipeline.DisplayFailureKeepsRow` | script.py:86-101 | when showing the annotated image fails after the verdict was recorded, the row stays, one error dialog with that message is shown and the status says error |
| `Pipeline.DetectionFailureRecordsNothing` | script.py:64-101 | when detection raises, the history is unchanged, nothing is reported and the one dialog carries that fault |
| `Pipeline.SuccessShowsVerdict` | script.py:86-97 | after a successful cycle the result label shows the recorded verdict, which is one of the three verdict texts |
| `Session.HistoryAppendOnly` | script.py:90 | over any sequence of cycles the history is the starting history followed by exactly the rows of the recording cycles, in order, each holding that cycle's timestamp and the verdict of its detected classes |
| `Session.SessionFromStartUp` | script.py:209-227 | from the freshly built window (empty history, progress 0, button `#004d40`), the history after any sequence of cycles is exactly the recorded rows, every one a verdict text, and the window is idle again whenever no frame save raised |
| `Session.VerdictsStayValid` | script.py:78-90 | every history row ever added carries one of the three verdict texts |
| `Session.StaysIdle` | script.py:102-105 | from an idle window, as long as no frame save raises, the window is idle (button `#004d40`, progress 0) after every sequence of cycles |
| `Session.ReportsMatchRows` | script.py:89-120 | every report posted in a session carries the verdict and timestamp of a row the session added, and there are no more reports than added rows |

## Left out

- The Tkinter window: widget layout, styling, scrolling, and the pixels drawn by
  `display_image` (script.py:138-145, 173-233). Only whether showing the image
  raises is modelled.
- The live preview and footer clock loops (script.py:147-167, 236-242). They are
  timer-driven UI refreshes with no effect on the history or reports.
- The YOLO detector. It is an oracle that either raises or returns results of
  class ids. Its confidence threshold (0.25, script.py:69) is part of that oracle
  and is not modelled.
- The `save_dir` lookup with its `hasattr` fallback (script.py:72-73). It only
  locates the annotated image, and whether that image can be read is an input.
- The file system: removing the old detections directory, writing the captured
  image and reading the result image (script.py:17-21, 53-57, 112-113). Each is
  modelled only as "completes or raises" (reading as "base64 text or nothing").
- Base64 encoding, `datetime` formatting, the fixed URLs and the JSON headers.
  The encoded image and the formatted timestamp are opaque strings.
- Console messages (`print`) and Tk's report of an escaped exception. The model
  records the escaped exception's message only.
- The transient progress value 100 is overwritten by the `finally` block before
  control returns. The model shows it in the intermediate state but makes no
  claim about what the user sees while a cycle runs.
- Class ids are `nat`. The truncation `int(cls)` of the detector's floating-point
  class values is not modelled.
- Results after the first one are ignored, as in the program.
- The POST to the reporting API (script.py:128) has no timeout, unlike the camera
  GET (script.py:27, 5 seconds). A POST that never answers would block the
  handler and the Tk event loop for good. The model assumes every POST answers or
  raises and every cycle ends, so it does not model that hang.
