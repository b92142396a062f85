/**
 * Scoring and the outcome rule: the selected classifier's label picks the
 * message, its positive-class probability gives the confidence, and an
 * exception anywhere in scoring becomes the error message instead.
 */
module Decision {
  import opened Wrappers
  import opened Features
  import Dispatch

  /**
   * A loaded classifier, seen only through its two scoring calls. Each
   * takes the scaled input (one row) and returns one label per row,
   * respectively one row of class probabilities per row, or raises.
   */
  datatype Classifier = Classifier(
    predict: Vector -> Result<seq<int>>,
    predictProba: Vector -> Result<seq<seq<real>>>)

  /** What one press of Predict shows. */
  datatype Outcome =
    | Recommended(treatment: string, confidence: real)
    | NotNeeded(treatment: string, confidence: real)
    | Failed(message: string)

  const ErrorPrefix: string := "Error during prediction or SHAP plotting: "

  /**
   * The label for the first row and its positive-class probability, in the
   * order the calls are made; an exception from either call, or a result
   * too short to index, is the error instead.
   */
  function Score(clf: Classifier, x: Vector): (r: Result<(int, real)>)
    ensures r.Ok? <==>
      && clf.predict(x).Ok? && |clf.predict(x).value| > 0
      && clf.predictProba(x).Ok? && |clf.predictProba(x).value| > 0
      && |clf.predictProba(x).value[0]| > 1
    ensures r.Ok? ==>
      r.value.0 == clf.predict(x).value[0] && r.value.1 == clf.predictProba(x).value[0][1]
  {
    match clf.predict(x)
    case Err(e) => Err(e)
    case Ok(labels) =>
      if |labels| == 0 then Err("IndexError: index 0 is out of bounds")
      else
        match clf.predictProba(x)
        case Err(e) => Err(e)
        case Ok(rows) =>
          if |rows| == 0 || |rows[0]| < 2 then Err("IndexError: index out of bounds")
          else Ok((labels[0], rows[0][1]))
  }

  /**
   * The displayed confidence: the probability is scaled to a percentage
   * once, and the negative branch subtracts that percentage from 100 once.
   */
  function Confidence(predicted: int, p: real): (c: real)
  {
    var probability := p * 100.0;
    if predicted == 1 then probability else 100.0 - probability
  }

  /** The outcome of one press of Predict, given the scaled row and the selected classifier. */
  function Predict(choice: string, clf: Classifier, x: Vector): (out: Outcome)
    ensures out.Failed? <==> Score(clf, x).Err?
    ensures out.Failed? ==> out.message == ErrorPrefix + Score(clf, x).error
    ensures out.Recommended? <==> Score(clf, x).Ok? && Score(clf, x).value.0 == 1
    ensures out.NotNeeded? <==> Score(clf, x).Ok? && Score(clf, x).value.0 != 1
    ensures !out.Failed? ==>
      out.treatment == choice && out.confidence == Confidence(Score(clf, x).value.0, Score(clf, x).value.1)
  {
    match Score(clf, x)
    case Err(e) => Failed(ErrorPrefix + e)
    case Ok((predicted, p)) =>
      if predicted == 1 then Recommended(choice, Confidence(predicted, p))
      else NotNeeded(choice, Confidence(predicted, p))
  }

  /** A probability in [0, 1] gives a confidence in [0, 100] on both branches. */
  lemma ConfidenceInRange(predicted: int, p: real)
    requires 0.0 <= p <= 1.0
    ensures 0.0 <= Confidence(predicted, p) <= 100.0
  {
  }

  /**
   * The confidence is 100 times the probability of the label actually
   * predicted, when the probability row is a distribution over {0, 1}.
   */
  lemma ConfidenceOfPredictedLabel(predicted: int, row: seq<real>)
    requires |row| == 2 && row[0] + row[1] == 1.0
    requires predicted == 0 || predicted == 1
    ensures Confidence(predicted, row[1]) == 100.0 * row[predicted]
  {
  }

  /**
   * When the label agrees with the probability at the one-half threshold,
   * the confidence shown for the decision is never below 50.
   */
  lemma ConfidenceAtLeastHalf(predicted: int, p: real)
    requires 0.0 <= p <= 1.0
    requires predicted == 1 <==> p >= 0.5
    ensures 50.0 <= Confidence(predicted, p) <= 100.0
  {
  }

  /** Every probability row a classifier returns holds probabilities in [0, 1]. */
  ghost predicate ProbabilitiesInRange(clf: Classifier)
  {
    forall x: Vector, i, j ::
      clf.predictProba(x).Ok? && 0 <= i < |clf.predictProba(x).value| && 0 <= j < |clf.predictProba(x).value[i]|
      ==> 0.0 <= clf.predictProba(x).value[i][j] <= 1.0
  }

  /** With such a classifier, a press of Predict never shows a confidence outside [0, 100]. */
  lemma PredictConfidenceInRange(choice: string, clf: Classifier, x: Vector)
    requires ProbabilitiesInRange(clf)
    ensures !Predict(choice, clf, x).Failed? ==> 0.0 <= Predict(choice, clf, x).confidence <= 100.0
  {
    if Score(clf, x).Ok? {
      var rows := clf.predictProba(x).value;
      assert 0.0 <= rows[0][1] <= 1.0;
      ConfidenceInRange(Score(clf, x).value.0, Score(clf, x).value.1);
    }
  }

  /** A label of 1 with probability 0.82 is "recommended" at 82% confidence. */
  lemma RecommendedExample()
    ensures Predict(Dispatch.Chemotherapy,
                    Classifier(x => Ok([1]), x => Ok([[0.18, 0.82]])), []) == Recommended("Chemotherapy", 82.0)
  {
  }

  /** A label of 0 with probability 0.30 is "not needed" at 70% confidence. */
  lemma NotNeededExample()
    ensures Predict(Dispatch.Chemotherapy,
                    Classifier(x => Ok([0]), x => Ok([[0.70, 0.30]])), []) == NotNeeded("Chemotherapy", 70.0)
  {
  }
}
