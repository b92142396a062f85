/**
 * One run of the recommender page: encode the inputs, scale the table,
 * pick the model for the chosen treatment and, when Predict was pressed,
 * score the row and show exactly one outcome.
 */
module App {
  import opened Wrappers
  import opened Features
  import opened Dispatch
  import opened Decision

  /** What a run of the page shows below the inputs. */
  datatype Page =
    | Crashed(message: string)
    | Idle
    | Shown(outcome: Outcome)

  /** The artifacts loaded once at start-up: the three classifiers and the shared scaler. */
  datatype Loaded = Loaded(registry: Registry<Classifier>, scaler: Frame -> Result<Vector>)

  /**
   * A run of the page. Scaling happens on every run, outside the guarded
   * block, so an exception there ends the run with no outcome; only a press
   * of Predict scores the row.
   */
  function Run(loaded: Loaded, choice: string, o: Observation, pressed: bool): (page: Page)
    ensures page.Crashed? <==> loaded.scaler(Encode(o).value).Err?
    ensures page.Idle? <==> !pressed && loaded.scaler(Encode(o).value).Ok?
    ensures page.Shown? <==> pressed && loaded.scaler(Encode(o).value).Ok?
    ensures page.Shown? ==>
      page.outcome == Predict(choice, ModelFor(loaded.registry, choice), loaded.scaler(Encode(o).value).value)
  {
    match Encode(o)
    case Err(e) => Crashed(e)
    case Ok(frame) =>
      match loaded.scaler(frame)
      case Err(e) => Crashed(e)
      case Ok(scaled) =>
        var model := ModelFor(loaded.registry, choice);
        if pressed then Shown(Predict(choice, model, scaled)) else Idle
  }

  /**
   * With classifiers whose probabilities lie in [0, 1], a press of Predict
   * never shows a confidence outside [0, 100], whichever treatment is chosen.
   */
  lemma RunConfidenceInRange(loaded: Loaded, choice: string, o: Observation, pressed: bool)
    requires ProbabilitiesInRange(loaded.registry.chemo)
    requires ProbabilitiesInRange(loaded.registry.hormone)
    requires ProbabilitiesInRange(loaded.registry.radio)
    ensures Run(loaded, choice, o, pressed).Shown? && !Run(loaded, choice, o, pressed).outcome.Failed? ==>
      0.0 <= Run(loaded, choice, o, pressed).outcome.confidence <= 100.0
  {
    var scaled := loaded.scaler(Encode(o).value);
    if scaled.Ok? {
      SelectedModelInRange(loaded.registry, choice);
      PredictConfidenceInRange(choice, ModelFor(loaded.registry, choice), scaled.value);
    }
  }

  /** Whichever treatment is chosen, the model it selects is one of the three loaded ones. */
  lemma SelectedModelInRange(reg: Registry<Classifier>, choice: string)
    requires ProbabilitiesInRange(reg.chemo)
    requires ProbabilitiesInRange(reg.hormone)
    requires ProbabilitiesInRange(reg.radio)
    ensures ProbabilitiesInRange(ModelFor(reg, choice))
  {
  }

  /**
   * A press of Predict shows the error message exactly when scoring with
   * the chosen treatment's model raised; otherwise it shows the
   * recommendation of that model, never both.
   */
  lemma PressShowsErrorOnlyWhenScoringRaises(loaded: Loaded, choice: string, o: Observation)
    requires loaded.scaler(Encode(o).value).Ok?
    ensures Run(loaded, choice, o, true).Shown?
    ensures Run(loaded, choice, o, true).outcome.Failed? <==>
      Score(ModelOf(loaded.registry, SelectModel(choice)), loaded.scaler(Encode(o).value).value).Err?
  {
  }

  /** The scaler always receives the dictionary's nine keys, in the dictionary's key order. */
  lemma ScalerSeesCanonicalColumns(o: Observation)
    ensures Names(Encode(o).value) == FeatureNames
    ensures Values(Encode(o).value) == FeatureRow(o)
  {
  }

  /** A 50-year-old pre-menopausal patient with a 20 mm, stage 1, grade 1, ER+/PR+/HER2- tumour and no positive nodes. */
  lemma CanonicalRowExample()
    ensures FeatureRow(Observation(50, 20.0, 1, 1, "Positive", "Positive", "Negative", 0, "Pre"))
      == [50.0, 20.0, 1.0, 1.0, 1.0, 1.0, 0.0, 0.0, 0.0]
  {
    var o := Observation(50, 20.0, 1, 1, "Positive", "Positive", "Negative", 0, "Pre");
    StatusOnWidgetValues(o.her2);
    MenopauseOnWidgetValues(o.meno);
  }
}
