/** One press of the capture button: fetch a frame, clear the previous detections
    and save the frame, detect, classify, record the verdict in the history table,
    show the annotated image, reset the progress indicator and button, and then
    try to post the verdict to the reporting web API. Every side effect the
    program cannot control (camera, file system, detector, display, clock, HTTP)
    is an input in `Env`; the visible state is the immutable `Ui`. */
module Pipeline {
  import opened Wrappers
  import opened Camera
  import opened Detection
  import opened Classifier

  /** Background of the capture button while idle. */
  const IdleColour: string := "#004d40"
  /** Background of the capture button while a capture is being processed. */
  const BusyColour: string := "#d32f2f"

  const WaitingStatus: string := "Aguardando interação..."
  const ProcessingStatus: string := "Processando imagem..."
  const DoneStatus: string := "Processamento concluído."
  const ErrorStatus: string := "Erro no processamento."

  /** The result label's text before any verdict was shown, and its prefix after. */
  const ResultCaption: string := "Resultado:"
  const ResultPrefix: string := "Resultado: "

  /** One row of the history table. */
  datatype Row = Row(timestamp: string, verdict: string)

  /** The state the capture cycle reads and writes: the history table, the
      progress bar value, the capture button's colour and the status and result
      labels' texts. */
  datatype Ui = Ui(history: seq<Row>, progress: int, button: string, status: string, result: string)

  /** The window as it is built at start-up. */
  function Initial(): Ui
  {
    Ui([], 0, IdleColour, WaitingStatus, ResultCaption)
  }

  /** An error dialog with its title and message. */
  datatype Dialog = Dialog(title: string, message: string)

  const CaptureFailedDialog: Dialog :=
    Dialog("Erro", "Falha ao capturar imagem da camera do Raspberry Pi.")

  const ProcessingFailedPrefix: string := "Erro ao processar a imagem: "

  /** The dialog shown when a stage between loading the model and showing the
      image raises. */
  function ProcessingFailedDialog(f: Fault): Dialog
  {
    Dialog("Erro", ProcessingFailedPrefix + FaultText(f))
  }

  /** Whether a side-effecting step completed or raised (with its message). */
  datatype Step = Completes | Raises(message: string)

  /** The outcome of the POST to the reporting API: a response status, or an
      exception from the request. */
  datatype PostOutcome = PostAnswered(status: int) | PostRaised(message: string)

  /** The JSON body posted to the reporting API. */
  datatype Payload = Payload(estado: string, image: string, dataValidacao: string)

  /** A report that went out, with what the API answered; the answer is only logged. */
  datatype Report = Report(payload: Payload, response: PostOutcome)

  /** Everything outside the program that one capture cycle depends on:
      - `fetch`: the camera request;
      - `persist`: clearing the old detections directory and writing the captured image;
      - `inference`: loading the model and predicting;
      - `timestamp`: the clock, already formatted as `YYYY-MM-DD HH:MM:SS`;
      - `display`: opening and showing the annotated image;
      - `resultImage`: the annotated image file as base64 text, `None` if it cannot be opened or read;
      - `post`: the reporting API's answer. */
  datatype Env = Env(
    fetch: FetchOutcome,
    persist: Step,
    inference: Inference,
    timestamp: string,
    display: Step,
    resultImage: Option<string>,
    post: PostOutcome)

  /** What one cycle produced: the new visible state, the error dialogs shown (in
      order), the report posted if any, and the message of an exception that
      escaped the handler if any. */
  datatype Cycle = Cycle(ui: Ui, dialogs: seq<Dialog>, report: Option<Report>, escaped: Option<string>)

  /** The outcome of the guarded block: the state it leaves, the dialogs it
      showed, and the history row it inserted if it got that far. */
  datatype Attempt = Attempt(ui: Ui, dialogs: seq<Dialog>, recorded: Option<Row>)

  /** The frame was fetched and saved, so the guarded block and its cleanup run. */
  predicate PassesPersist(env: Env) {
    FetchFrame(env.fetch).Some? && env.persist.Completes?
  }

  /** Saving the frame raised: the exception leaves the handler unguarded. */
  predicate Escapes(env: Env) {
    FetchFrame(env.fetch).Some? && env.persist.Raises?
  }

  /** The cycle gets as far as taking the timestamp and inserting the history row:
      the frame was saved, the model loaded and predicted, there was a first
      result and every box's class id has a name. */
  predicate Records(env: Env) {
    && PassesPersist(env)
    && env.inference.Predicted?
    && |env.inference.results| > 0
    && AllKnown(env.inference.names, env.inference.results[0].boxes)
  }

  /** The cycle runs to its end without any dialog. */
  predicate Succeeds(env: Env) {
    Records(env) && env.display.Completes?
  }

  /** The guarded block: detect and classify, show the verdict, insert the history
      row, then show the image. The row is inserted before the image is shown, so
      a display failure still leaves it in place. */
  function Guarded(u: Ui, env: Env): (a: Attempt)
    ensures |a.dialogs| <= 1
  {
    match DetectedClasses(env.inference)
    case Failure(f) =>
      Attempt(u.(status := ErrorStatus), [ProcessingFailedDialog(f)], None)
    case Success(labels) =>
      var verdict := Classify(labels);
      var row := Row(env.timestamp, verdict);
      var shown := u.(result := ResultPrefix + verdict, history := u.history + [row]);
      match env.display
      case Raises(m) =>
        Attempt(shown.(status := ErrorStatus), [ProcessingFailedDialog(Raised(m))], Some(row))
      case Completes =>
        Attempt(shown.(progress := 100, status := DoneStatus), [], Some(row))
  }

  /** The reporting block after the guarded block. It runs whether or not the block
      raised, but needs the verdict and timestamp the block binds only once it has
      recorded its row; without them, or without a readable result image, the
      resulting exception is swallowed and nothing is posted. */
  function Reporting(recorded: Option<Row>, env: Env): Option<Report>
  {
    match recorded
    case None => None
    case Some(row) =>
      match env.resultImage
      case None => None
      case Some(image) =>
        Some(Report(Payload(row.verdict, image, row.timestamp), env.post))
  }

  /** One capture cycle started in state `s`. */
  function CaptureAndPredict(s: Ui, env: Env): (c: Cycle)
    // No frame: one dialog, nothing else changes and nothing is reported.
    ensures FetchFrame(env.fetch).None? ==>
      c.ui == s && c.dialogs == [CaptureFailedDialog] && c.report.None? && c.escaped.None?
    // Saving the frame failed: the button stays busy and nothing else happens.
    ensures Escapes(env) ==>
      c.ui == s.(button := BusyColour) && c.dialogs == [] && c.report.None?
      && c.escaped == Some(env.persist.message)
    // Past the save, cleanup always runs and no exception escapes.
    ensures PassesPersist(env) ==>
      c.ui.button == IdleColour && c.ui.progress == 0 && c.escaped.None?
    // The history gains exactly the row of this cycle when it records, else nothing.
    ensures Records(env) ==>
      c.ui.history == s.history + [Row(env.timestamp, Classify(DetectedClasses(env.inference).value))]
    ensures !Records(env) ==> c.ui.history == s.history
    // Exactly one error dialog unless the cycle succeeds.
    ensures Succeeds(env) ==> c.dialogs == []
    ensures !Succeeds(env) && !Escapes(env) ==> |c.dialogs| == 1
    ensures PassesPersist(env) ==> c.ui.status == (if Succeeds(env) then DoneStatus else ErrorStatus)
    // The result label shows this cycle's verdict once it is recorded (even if the
    // image then fails to show); otherwise it keeps the previous cycle's text.
    ensures Records(env) ==> c.ui.result == ResultPrefix + c.ui.history[|c.ui.history| - 1].verdict
    ensures !Records(env) && !Escapes(env) ==> c.ui.result == s.result
    // A report goes out exactly when the row was recorded and the image could be read,
    // and it carries the recorded row's verdict and timestamp.
    ensures c.report.Some? <==> Records(env) && env.resultImage.Some?
    ensures c.report.Some? ==>
      c.report.value.payload == Payload(c.ui.history[|c.ui.history| - 1].verdict,
                                        env.resultImage.value,
                                        c.ui.history[|c.ui.history| - 1].timestamp)
  {
    match FetchFrame(env.fetch)
    case None => Cycle(s, [CaptureFailedDialog], None, None)
    case Some(_) =>
      var busy := s.(button := BusyColour);
      match env.persist
      case Raises(m) => Cycle(busy, [], None, Some(m))
      case Completes =>
        var working := busy.(progress := 50, status := ProcessingStatus);
        var a := Guarded(working, env);
        var cleaned := a.ui.(button := IdleColour, progress := 0);
        Cycle(cleaned, a.dialogs, Reporting(a.recorded, env), None)
  }

  /** A camera request that raised, answered with a status other than 200, or
      returned a body the decoder rejects shows the capture error and changes
      nothing else: no history row, no report, same button, progress and labels. */
  lemma FailedFetchIsInert(s: Ui, env: Env)
    requires env.fetch.TransportFailed? || env.fetch.status != StatusOk || env.fetch.decoded.None?
    ensures CaptureAndPredict(s, env) == Cycle(s, [CaptureFailedDialog], None, None)
  {
  }

  /** A 200 answer with a decodable image always moves the cycle past the capture
      check: the capture error is never shown, and any dialog is a processing
      failure's. */
  lemma DecodedFrameStartsProcessing(s: Ui, env: Env)
    requires env.fetch.Responded? && env.fetch.status == StatusOk && env.fetch.decoded.Some?
    ensures forall d :: d in CaptureAndPredict(s, env).dialogs ==> ProcessingFailedPrefix <= d.message
  {
  }

  /** The reporting API's answer, failure included, never changes the visible
      state or the dialogs of the cycle. */
  lemma ReportOutcomeIsInvisible(s: Ui, env: Env, post: PostOutcome)
    ensures CaptureAndPredict(s, env.(post := post)).ui == CaptureAndPredict(s, env).ui
    ensures CaptureAndPredict(s, env.(post := post)).dialogs == CaptureAndPredict(s, env).dialogs
  {
  }

  /** A failure to show the annotated image still leaves the cycle's history row,
      and shows the error. */
  lemma DisplayFailureKeepsRow(s: Ui, env: Env)
    requires Records(env) && env.display.Raises?
    ensures |CaptureAndPredict(s, env).ui.history| == |s.history| + 1
    ensures CaptureAndPredict(s, env).dialogs == [ProcessingFailedDialog(Raised(env.display.message))]
    ensures CaptureAndPredict(s, env).ui.status == ErrorStatus
  {
  }

  /** A cycle whose detection raised records nothing and reports nothing. */
  lemma DetectionFailureRecordsNothing(s: Ui, env: Env)
    requires PassesPersist(env) && DetectedClasses(env.inference).Failure?
    ensures CaptureAndPredict(s, env).ui.history == s.history
    ensures CaptureAndPredict(s, env).report.None?
    ensures CaptureAndPredict(s, env).dialogs == [ProcessingFailedDialog(DetectedClasses(env.inference).error)]
  {
  }

  /** A successful cycle shows the recorded verdict in the result label. */
  lemma SuccessShowsVerdict(s: Ui, env: Env)
    requires Succeeds(env)
    ensures var c := CaptureAndPredict(s, env);
            c.ui.result == ResultPrefix + c.ui.history[|c.ui.history| - 1].verdict
            && IsVerdict(c.ui.history[|c.ui.history| - 1].verdict)
  {
  }
}
