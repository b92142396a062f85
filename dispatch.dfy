/**
 * Model dispatch: the treatment chosen on the page selects which of the
 * three loaded classifiers scores the feature row.
 */
module Dispatch {

  /** The three classifiers loaded at start-up. */
  datatype ModelKind = ChemoModel | HormoneModel | RadioModel

  const Chemotherapy: string := "Chemotherapy"
  const HormoneTherapy: string := "Hormone Therapy"
  const Radiotherapy: string := "Radiotherapy"

  /** The options of the treatment selector, in display order. */
  const TreatmentOptions: seq<string> := [Chemotherapy, HormoneTherapy, Radiotherapy]

  /**
   * The if/elif/else on the chosen treatment: "Chemotherapy" and
   * "Hormone Therapy" pick their own model, every other string falls
   * through to the radiotherapy model.
   */
  function SelectModel(choice: string): (k: ModelKind)
    ensures k == ChemoModel <==> choice == Chemotherapy
    ensures k == HormoneModel <==> choice == HormoneTherapy
    ensures k == RadioModel <==> choice != Chemotherapy && choice != HormoneTherapy
  {
    if choice == Chemotherapy then ChemoModel
    else if choice == HormoneTherapy then HormoneModel
    else RadioModel
  }

  /** The selector option that names a model's treatment. */
  function OptionFor(k: ModelKind): (choice: string)
    ensures choice in TreatmentOptions
  {
    match k
    case ChemoModel => Chemotherapy
    case HormoneModel => HormoneTherapy
    case RadioModel => Radiotherapy
  }

  /** Every selector option reaches the model of its own treatment. */
  lemma SelectModelInvertsOptionFor(k: ModelKind)
    ensures SelectModel(OptionFor(k)) == k
  {
    if k == RadioModel {
      assert Radiotherapy[0] != Chemotherapy[0] && Radiotherapy[0] != HormoneTherapy[0];
    }
  }

  /** The three options reach three different models, so each model is reachable from exactly one option. */
  lemma OptionsReachDistinctModels(i: nat, j: nat)
    requires i < |TreatmentOptions| && j < |TreatmentOptions|
    ensures SelectModel(TreatmentOptions[i]) == SelectModel(TreatmentOptions[j]) <==> i == j
  {
    assert Radiotherapy[0] != Chemotherapy[0] && Radiotherapy[0] != HormoneTherapy[0];
    assert Chemotherapy[0] != HormoneTherapy[0];
  }

  /** The loaded models, one per treatment; nothing replaces them after start-up. */
  datatype Registry<M> = Registry(chemo: M, hormone: M, radio: M)

  function ModelOf<M>(reg: Registry<M>, k: ModelKind): (m: M)
  {
    match k
    case ChemoModel => reg.chemo
    case HormoneModel => reg.hormone
    case RadioModel => reg.radio
  }

  /** The model that scores a request for the chosen treatment. */
  function ModelFor<M>(reg: Registry<M>, choice: string): (m: M)
    ensures choice == Chemotherapy ==> m == reg.chemo
    ensures choice == HormoneTherapy ==> m == reg.hormone
    ensures choice != Chemotherapy && choice != HormoneTherapy ==> m == reg.radio
  {
    ModelOf(reg, SelectModel(choice))
  }
}
