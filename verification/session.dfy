/** A session: the capture cycles of one run of the program, applied in order to
    the window state. The history is an in-memory table that only grows. */
module Session {
  import opened Wrappers
  import opened Classifier
  import opened Detection
  import opened Pipeline

  /** The state after a sequence of cycles, with every dialog shown and every
      report posted along the way, in order. */
  datatype Trace = Trace(ui: Ui, dialogs: seq<Dialog>, reports: seq<Report>)

  /** The reports a cycle posted, as a sequence. */
  function Posted(c: Cycle): seq<Report>
  {
    match c.report
    case None => []
    case Some(r) => [r]
  }

  /** Runs the cycles `envs` one after another from state `s`. */
  function Run(s: Ui, envs: seq<Env>): Trace
    decreases |envs|
  {
    if |envs| == 0 then Trace(s, [], [])
    else
      var c := CaptureAndPredict(s, envs[0]);
      var rest := Run(c.ui, envs[1..]);
      Trace(rest.ui, c.dialogs + rest.dialogs, Posted(c) + rest.reports)
  }

  /** The history rows the cycles record, in order: one row per recording cycle,
      with that cycle's timestamp and the verdict of its detected classes. */
  function RecordedRows(envs: seq<Env>): seq<Row>
  {
    if |envs| == 0 then []
    else
      var here := if Records(envs[0])
        then [Row(envs[0].timestamp, Classify(DetectedClasses(envs[0].inference).value))]
        else [];
      here + RecordedRows(envs[1..])
  }

  /** Every history row carries one of the three verdict texts. */
  predicate VerdictsValid(h: seq<Row>) {
    forall i :: 0 <= i < |h| ==> IsVerdict(h[i].verdict)
  }

  /** The button and progress bar show an idle window. */
  predicate Idle(u: Ui) {
    u.button == IdleColour && u.progress == 0
  }

  /** The history only grows at its end: earlier rows are never changed or removed,
      and it gains exactly the rows of the recording cycles, in order. */
  lemma {:induction false} HistoryAppendOnly(s: Ui, envs: seq<Env>)
    ensures Run(s, envs).ui.history == s.history + RecordedRows(envs)
    decreases |envs|
  {
    if |envs| > 0 {
      var c := CaptureAndPredict(s, envs[0]);
      HistoryAppendOnly(c.ui, envs[1..]);
    }
  }

  /** A session started from the freshly built window: its history is exactly the
      rows of its recording cycles, each a verdict text, and the window is idle
      after every sequence of cycles in which no save of a frame raises. */
  lemma SessionFromStartUp(envs: seq<Env>)
    ensures Run(Initial(), envs).ui.history == RecordedRows(envs)
    ensures VerdictsValid(Run(Initial(), envs).ui.history)
    ensures (forall i :: 0 <= i < |envs| ==> !Escapes(envs[i])) ==> Idle(Run(Initial(), envs).ui)
  {
    HistoryAppendOnly(Initial(), envs);
    VerdictsStayValid(Initial(), envs);
    if forall i :: 0 <= i < |envs| ==> !Escapes(envs[i]) {
      StaysIdle(Initial(), envs);
    }
  }

  /** Starting from a history of verdicts, every row ever added is a verdict too. */
  lemma {:induction false} VerdictsStayValid(s: Ui, envs: seq<Env>)
    requires VerdictsValid(s.history)
    ensures VerdictsValid(Run(s, envs).ui.history)
    decreases |envs|
  {
    if |envs| > 0 {
      var c := CaptureAndPredict(s, envs[0]);
      assert VerdictsValid(c.ui.history);
      VerdictsStayValid(c.ui, envs[1..]);
    }
  }

  /** As long as no save of a captured frame raises, the window returns to idle
      after every cycle. */
  lemma {:induction false} StaysIdle(s: Ui, envs: seq<Env>)
    requires Idle(s)
    requires forall i :: 0 <= i < |envs| ==> !Escapes(envs[i])
    ensures Idle(Run(s, envs).ui)
    decreases |envs|
  {
    if |envs| > 0 {
      var c := CaptureAndPredict(s, envs[0]);
      assert !Escapes(envs[0]);
      StaysIdle(c.ui, envs[1..]);
    }
  }

  /** The payload a report carries, read as a history row. */
  function ReportedRow(r: Report): Row {
    Row(r.payload.dataValidacao, r.payload.estado)
  }

  /** Every report posted during the session carries the verdict and timestamp
      of a row the session added to the history, and there are never more
      reports than added rows. */
  lemma {:induction false} ReportsMatchRows(s: Ui, envs: seq<Env>)
    ensures |Run(s, envs).reports| <= |Run(s, envs).ui.history| - |s.history|
    ensures forall k :: 0 <= k < |Run(s, envs).reports| ==>
      ReportedRow(Run(s, envs).reports[k]) in Run(s, envs).ui.history[|s.history|..]
    decreases |envs|
  {
    HistoryAppendOnly(s, envs);
    if |envs| > 0 {
      var c := CaptureAndPredict(s, envs[0]);
      var rest := Run(c.ui, envs[1..]);
      var h := rest.ui.history;
      ReportsMatchRows(c.ui, envs[1..]);
      HistoryAppendOnly(c.ui, envs[1..]);
      assert c.ui.history <= h;
      var added := h[|s.history|..];
      assert h[|c.ui.history|..] == added[|c.ui.history| - |s.history|..];
      forall k | 0 <= k < |rest.reports|
        ensures ReportedRow(rest.reports[k]) in added
      {
        var x := ReportedRow(rest.reports[k]);
        assert x in h[|c.ui.history|..];
      }
      if c.report.Some? {
        var last := |c.ui.history| - 1;
        assert |c.ui.history| == |s.history| + 1;
        assert ReportedRow(c.report.value) == c.ui.history[last] == h[last];
        assert h[last] == added[last - |s.history|];
      }
    }
  }
}
