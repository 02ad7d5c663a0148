/** The verdict rule: maps the class names the detector found to one of three
    fixed Portuguese verdict texts, with damage taking precedence over a
    simultaneous normal detection. */
module Classifier {

  /** Detector class name of an intact box. */
  const NormalLabel: string := "normal_box"
  /** Detector class name of a damaged box. */
  const DestroyedLabel: string := "destroyed_box"

  /** Verdict for an intact box. */
  const GoodVerdict: string := "Caixa em boas condições"
  /** Verdict for a damaged box. */
  const DamagedVerdict: string := "Caixa danificada"
  /** Verdict when no box, or no recognised box, was detected. */
  const UncertainVerdict: string := "Nenhuma caixa identificada ou resultado incerto"

  /** The closed set of texts the classifier can produce. */
  predicate IsVerdict(v: string) {
    v == GoodVerdict || v == DamagedVerdict || v == UncertainVerdict
  }

  /** The verdict for a list of detected class names. The branches are checked in
      the order the program tests them (normal-and-not-destroyed first); the
      contract states the rule by precedence: a destroyed box decides, then a
      normal box, otherwise the result is uncertain. */
  function Classify(labels: seq<string>): (v: string)
    ensures IsVerdict(v)
    ensures v == DamagedVerdict <==> DestroyedLabel in labels
    ensures v == GoodVerdict <==> NormalLabel in labels && DestroyedLabel !in labels
    ensures v == UncertainVerdict <==> NormalLabel !in labels && DestroyedLabel !in labels
  {
    if NormalLabel in labels && DestroyedLabel !in labels then GoodVerdict
    else if DestroyedLabel in labels then DamagedVerdict
    else UncertainVerdict
  }

  /** How severe a verdict is: damage over good condition over uncertainty. */
  function Severity(v: string): nat
  {
    if v == DamagedVerdict then 2 else if v == GoodVerdict then 1 else 0
  }

  /** The more severe of two verdicts. */
  function Worse(v: string, w: string): string {
    if Severity(v) >= Severity(w) then v else w
  }

  /** The verdict depends only on which names occur: reordering, duplicating or
      dropping repeated names leaves it unchanged. */
  lemma ClassifyDependsOnlyOnMembership(a: seq<string>, b: seq<string>)
    requires forall x :: x in a <==> x in b
    ensures Classify(a) == Classify(b)
  {
  }

  /** The verdict for the detections of two halves together is the more severe of
      the two halves' verdicts: precedence is a maximum, so damage anywhere wins. */
  lemma ClassifyConcat(a: seq<string>, b: seq<string>)
    ensures Classify(a + b) == Worse(Classify(a), Classify(b))
  {
  }

  /** Names other than the two recognised ones never change the verdict. */
  lemma ClassifyIgnoresUnknownLabels(a: seq<string>, x: string)
    requires x != NormalLabel && x != DestroyedLabel
    ensures Classify(a + [x]) == Classify(a)
    ensures Classify([x] + a) == Classify(a)
  {
  }

  /** The verdicts of four sample detections. */
  lemma ClassifySamples()
    ensures Classify([NormalLabel]) == GoodVerdict
    ensures Classify([DestroyedLabel]) == DamagedVerdict
    ensures Classify([NormalLabel, DestroyedLabel]) == DamagedVerdict
    ensures Classify([]) == UncertainVerdict
  {
  }
}
