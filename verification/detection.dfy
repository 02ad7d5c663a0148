/** The detector call and the extraction of the detected class names: loading the
    model, running the prediction, taking the first image's result and mapping each
    box's class id to its name. The detector itself is an oracle; only its outcome
    is modelled. */
module Detection {
  import opened Wrappers

  /** One image's detections: the class id of each box, in box order. */
  datatype ImageResult = ImageResult(boxes: seq<nat>)

  /** What loading the model and predicting on the captured image produced. */
  datatype Inference =
    | LoadFailed(message: string)
    | PredictFailed(message: string)
    | Predicted(names: map<nat, string>, results: seq<ImageResult>)

  /** An exception raised between loading the model and recording the verdict:
      one raised by a library with its message, the index error of taking the
      first result of an empty result list, or the key error of a class id the
      model's name table lacks. */
  datatype Fault = Raised(message: string) | IndexOutOfRange | KeyMissing(key: nat)

  /** The text `str(e)` gives for the fault, as shown in the error dialog. */
  function FaultText(f: Fault): string {
    match f
    case Raised(m) => m
    case IndexOutOfRange => "list index out of range"
    case KeyMissing(k) => Decimal(k)
  }

  /** The character of one decimal digit. */
  function DigitChar(d: nat): (c: char)
    requires d < 10
    ensures '0' <= c <= '9'
  {
    "0123456789"[d]
  }

  /** The decimal text of a natural number, as Python's `str` writes it. */
  function Decimal(n: nat): (s: string)
    ensures |s| >= 1
    ensures forall i :: 0 <= i < |s| ==> '0' <= s[i] <= '9'
    ensures |s| > 1 ==> s[0] != '0'
    decreases n
  {
    if n < 10 then [DigitChar(n)] else Decimal(n / 10) + [DigitChar(n % 10)]
  }

  /** The number a string of decimal digits denotes. */
  function DecimalValue(s: string): nat
    requires forall i :: 0 <= i < |s| ==> '0' <= s[i] <= '9'
  {
    if |s| == 0 then 0
    else 10 * DecimalValue(s[..|s| - 1]) + ((s[|s| - 1] as int) - ('0' as int))
  }

  /** Reading back the decimal text of `n` gives `n`. */
  lemma {:induction false} DecimalRoundTrip(n: nat)
    ensures DecimalValue(Decimal(n)) == n
    decreases n
  {
    if n >= 10 {
      var s := Decimal(n);
      assert s[..|s| - 1] == Decimal(n / 10);
      DecimalRoundTrip(n / 10);
    }
  }

  /** Every box's class id is a key of the name table. */
  predicate AllKnown(names: map<nat, string>, boxes: seq<nat>) {
    forall i :: 0 <= i < |boxes| ==> boxes[i] in names
  }

  /** The names of the boxes' classes, in box order; the first id missing from the
      table raises a key error, as the list comprehension does. */
  function ClassNames(names: map<nat, string>, boxes: seq<nat>): (r: Result<seq<string>, Fault>)
    ensures r.Success? <==> AllKnown(names, boxes)
    ensures r.Success? ==> |r.value| == |boxes|
    ensures r.Success? ==> forall i :: 0 <= i < |boxes| ==> r.value[i] == names[boxes[i]]
    ensures r.Failure? ==>
      exists k :: 0 <= k < |boxes| && r.error == KeyMissing(boxes[k]) && boxes[k] !in names
                  && AllKnown(names, boxes[..k])
  {
    if |boxes| == 0 then Success([])
    else if boxes[0] !in names then
      assert AllKnown(names, boxes[..0]);
      Failure(KeyMissing(boxes[0]))
    else
      match ClassNames(names, boxes[1..])
      case Success(rest) => Success([names[boxes[0]]] + rest)
      case Failure(f) =>
        assert forall k :: 0 <= k < |boxes| - 1 ==> boxes[1..][..k] == boxes[1..k + 1];
        assert forall k :: 0 < k < |boxes| ==> boxes[..k] == [boxes[0]] + boxes[1..k];
        Failure(f)
  }

  /** The detected class names of a run, or the fault raised while obtaining them:
      a failed load or prediction raises; an empty result list raises an index
      error before any emptiness test; a first result with no boxes gives no names;
      otherwise each box contributes its class name in box order. Results after
      the first are ignored. */
  function DetectedClasses(inf: Inference): (r: Result<seq<string>, Fault>)
    ensures (inf.LoadFailed? || inf.PredictFailed?) ==> r == Failure(Raised(inf.message))
    ensures inf.Predicted? && |inf.results| == 0 ==> r == Failure(IndexOutOfRange)
    ensures r.Success? <==>
      inf.Predicted? && |inf.results| > 0 && AllKnown(inf.names, inf.results[0].boxes)
    ensures r.Success? ==> |r.value| == |inf.results[0].boxes|
    ensures r.Success? ==>
      forall i :: 0 <= i < |r.value| ==> r.value[i] == inf.names[inf.results[0].boxes[i]]
  {
    match inf
    case LoadFailed(m) => Failure(Raised(m))
    case PredictFailed(m) => Failure(Raised(m))
    case Predicted(names, results) =>
      if |results| == 0 then Failure(IndexOutOfRange)
      else if |results[0].boxes| == 0 then Success([])
      else ClassNames(names, results[0].boxes)
  }
}
