/**
 * The feature encoder of the treatment recommender: the categorical inputs
 * become 0/1 flags, the nine inputs are packed into a named record in a
 * fixed order, and the columns are re-selected by that record's own key
 * order before scaling.
 */
module Features {
  import opened Wrappers

  /** The raw values the input widgets hand to the decision path. */
  datatype Observation = Observation(
    age: int,
    tumorSize: real,
    tumorStage: int,
    grade: int,
    er: string,
    pr: string,
    her2: string,
    nodes: int,
    meno: string)

  /** One row of numbers, as handed to the scaler and the classifiers. */
  type Vector = seq<real>

  const Positive: string := "Positive"
  const Negative: string := "Negative"
  const Pre: string := "Pre"
  const Post: string := "Post"

  /** The ranges and choices the input widgets allow. */
  predicate WidgetRange(o: Observation)
  {
    && 20 <= o.age <= 100
    && 1.0 <= o.tumorSize <= 100.0
    && 1 <= o.tumorStage <= 4
    && 1 <= o.grade <= 3
    && (o.er == Positive || o.er == Negative)
    && (o.pr == Positive || o.pr == Negative)
    && (o.her2 == Positive || o.her2 == Negative)
    && 0 <= o.nodes <= 50
    && (o.meno == Pre || o.meno == Post)
  }

  /** ER, PR and HER2 status: "Positive" is 1, every other string is 0. */
  function EncodeStatus(status: string): (bit: int)
    ensures bit == 0 || bit == 1
    ensures bit == 1 <==> status == Positive
  {
    if status == Positive then 1 else 0
  }

  /** Menopausal state: "Post" is 1, every other string is 0. */
  function EncodeMenopause(state: string): (bit: int)
    ensures bit == 0 || bit == 1
    ensures bit == 1 <==> state == Post
  {
    if state == Post then 1 else 0
  }

  /** On the two values the radio buttons offer, "Negative" is exactly the 0 case. */
  lemma StatusOnWidgetValues(status: string)
    requires status == Positive || status == Negative
    ensures EncodeStatus(status) == 0 <==> status == Negative
  {
    assert Positive[0] != Negative[0];
  }

  /** On the two values the radio buttons offer, "Pre" is exactly the 0 case. */
  lemma MenopauseOnWidgetValues(state: string)
    requires state == Pre || state == Post
    ensures EncodeMenopause(state) == 0 <==> state == Pre
  {
    assert Pre[1] != Post[1];
  }

  /** A named column holding the single value of a one-row table. */
  datatype Column = Column(name: string, value: real)

  /** A one-row table: its columns in insertion order. */
  type Frame = seq<Column>

  /** The column names in order, as `list(d.keys())` gives them. */
  function Names(f: Frame): (ns: seq<string>)
    ensures |ns| == |f|
    ensures forall i :: 0 <= i < |f| ==> ns[i] == f[i].name
  {
    if f == [] then [] else [f[0].name] + Names(f[1..])
  }

  /** The row's values in column order. */
  function Values(f: Frame): (vs: Vector)
    ensures |vs| == |f|
    ensures forall i :: 0 <= i < |f| ==> vs[i] == f[i].value
  {
    if f == [] then [] else [f[0].value] + Values(f[1..])
  }

  predicate DistinctNames(f: Frame)
  {
    forall i, j :: 0 <= i < j < |f| ==> f[i].name != f[j].name
  }

  /** The value of the first column called `name`; None is a missing key. */
  function Lookup(f: Frame, name: string): (v: Option<real>)
    ensures v.None? <==> name !in Names(f)
  {
    if f == [] then None
    else if f[0].name == name then Some(f[0].value)
    else Lookup(f[1..], name)
  }

  /** A successful lookup returns the value of the first column with that name. */
  lemma {:induction false} LookupFindsFirst(f: Frame, name: string)
    ensures Lookup(f, name).Some? ==>
      exists i :: 0 <= i < |f| && f[i].name == name && f[i].value == Lookup(f, name).value
                  && forall j :: 0 <= j < i ==> f[j].name != name
  {
    if f != [] && f[0].name != name {
      LookupFindsFirst(f[1..], name);
      if Lookup(f[1..], name).Some? {
        var k :| 0 <= k < |f| - 1 && f[1..][k].name == name && f[1..][k].value == Lookup(f, name).value
                 && forall j :: 0 <= j < k ==> f[1..][j].name != name;
        forall j | 0 <= j < k + 1 ensures f[j].name != name {
          if j > 0 { assert f[j] == f[1..][j - 1]; }
        }
        assert f[k + 1] == f[1..][k];
      }
    }
  }

  /**
   * `frame[names]`: for each requested name, the first column of that name,
   * in the requested order; a name that is not a column raises KeyError.
   * Tables with a repeated column name are not modelled.
   */
  function SelectColumns(f: Frame, names: seq<string>): (r: Result<Frame>)
    ensures r.Ok? <==> forall n :: n in names ==> n in Names(f)
    ensures r.Ok? ==> Names(r.value) == names
    ensures r.Ok? ==> forall i :: 0 <= i < |names| ==> Lookup(f, names[i]) == Some(r.value[i].value)
  {
    if names == [] then Ok([])
    else
      match Lookup(f, names[0])
      case None =>
        assert names[0] in names;
        Err("KeyError: " + names[0])
      case Some(v) =>
        assert forall n :: n in names[1..] ==> n in names;
        match SelectColumns(f, names[1..])
        case Err(e) => Err(e)
        case Ok(rest) =>
          assert forall i :: 1 <= i < |names| ==> names[i] == names[1..][i - 1];
          Ok([Column(names[0], v)] + rest)
  }

  /** In a table with distinct column names, looking up a column's own name finds that column. */
  lemma {:induction false} LookupOwnName(f: Frame, i: nat)
    requires DistinctNames(f) && i < |f|
    ensures Lookup(f, f[i].name) == Some(f[i].value)
  {
    if i > 0 {
      assert f[0].name != f[i].name;
      assert DistinctNames(f[1..]) by {
        forall a, b | 0 <= a < b < |f| - 1 ensures f[1..][a].name != f[1..][b].name {
          assert f[1..][a] == f[a + 1] && f[1..][b] == f[b + 1];
        }
      }
      LookupOwnName(f[1..], i - 1);
    }
  }

  /** Re-selecting a suffix of the table's own key order gives back that suffix of the table. */
  lemma {:induction false} SelectOwnOrderFrom(f: Frame, k: nat)
    requires DistinctNames(f) && k <= |f|
    ensures SelectColumns(f, Names(f)[k..]) == Ok(f[k..])
    decreases |f| - k
  {
    if k < |f| {
      var ns := Names(f)[k..];
      assert ns[0] == f[k].name;
      assert ns[1..] == Names(f)[k + 1..];
      LookupOwnName(f, k);
      assert Lookup(f, ns[0]) == Some(f[k].value);
      SelectOwnOrderFrom(f, k + 1);
      assert SelectColumns(f, ns[1..]) == Ok(f[k + 1..]);
      assert SelectColumns(f, ns) == Ok([Column(ns[0], f[k].value)] + f[k + 1..]);
      assert f[k..] == [f[k]] + f[k + 1..];
    } else {
      assert Names(f)[k..] == [];
      assert f[k..] == [];
    }
  }

  /** `df[list(d.keys())]` is the table itself when its keys are distinct. */
  lemma SelectOwnOrder(f: Frame)
    requires DistinctNames(f)
    ensures SelectColumns(f, Names(f)) == Ok(f)
  {
    SelectOwnOrderFrom(f, 0);
    assert Names(f)[0..] == Names(f) && f[0..] == f;
  }

  /** The keys of the input dictionary, in literal order. */
  const FeatureNames: seq<string> := [
    "Age at Diagnosis",
    "Tumor Size",
    "Tumor Stage",
    "Neoplasm Histologic Grade",
    "ER Status",
    "PR Status",
    "HER2 Status",
    "Lymph nodes examined positive",
    "Inferred Menopausal State"
  ]

  /** No feature name occurs twice: they differ in their first letter, or in their length. */
  lemma FeatureNamesDistinct()
    ensures forall i, j :: 0 <= i < j < |FeatureNames| ==> FeatureNames[i] != FeatureNames[j]
  {
    var heads := [
      FeatureNames[0][0], FeatureNames[1][0], FeatureNames[2][0], FeatureNames[3][0],
      FeatureNames[4][0], FeatureNames[5][0], FeatureNames[6][0], FeatureNames[7][0],
      FeatureNames[8][0]];
    assert heads == ['A', 'T', 'T', 'N', 'E', 'P', 'H', 'L', 'I'];
    assert |FeatureNames[1]| == 10 && |FeatureNames[2]| == 11;
    forall i, j | 0 <= i < j < |FeatureNames| ensures FeatureNames[i] != FeatureNames[j] {
      if i == 1 && j == 2 {
        assert |FeatureNames[i]| != |FeatureNames[j]|;
      } else {
        assert heads[i] != heads[j];
      }
    }
  }

  /** The input dictionary, after the categorical inputs have been encoded. */
  function InputDict(o: Observation): (f: Frame)
    ensures Names(f) == FeatureNames
    ensures DistinctNames(f)
  {
    var f := [
      Column(FeatureNames[0], o.age as real),
      Column(FeatureNames[1], o.tumorSize),
      Column(FeatureNames[2], o.tumorStage as real),
      Column(FeatureNames[3], o.grade as real),
      Column(FeatureNames[4], EncodeStatus(o.er) as real),
      Column(FeatureNames[5], EncodeStatus(o.pr) as real),
      Column(FeatureNames[6], EncodeStatus(o.her2) as real),
      Column(FeatureNames[7], o.nodes as real),
      Column(FeatureNames[8], EncodeMenopause(o.meno) as real)
    ];
    FeatureNamesDistinct();
    assert forall i :: 0 <= i < |f| ==> f[i].name == FeatureNames[i];
    f
  }

  /**
   * The canonical feature row: age, tumour size, stage, grade, the ER, PR
   * and HER2 flags, the positive node count and the menopausal flag.
   */
  function CanonicalRow(o: Observation): (v: Vector)
    ensures |v| == 9
  {
    [o.age as real, o.tumorSize, o.tumorStage as real, o.grade as real,
     EncodeStatus(o.er) as real, EncodeStatus(o.pr) as real, EncodeStatus(o.her2) as real,
     o.nodes as real, EncodeMenopause(o.meno) as real]
  }

  /** The input dictionary's values, in its key order. */
  lemma InputDictValues(o: Observation)
    ensures Values(InputDict(o)) == CanonicalRow(o)
  {
  }

  /**
   * The table handed to the scaler: the input dictionary as a table, its
   * columns re-selected by the dictionary's own key order.
   */
  function Encode(o: Observation): (r: Result<Frame>)
    ensures r.Ok?
    ensures Names(r.value) == FeatureNames
    ensures Values(r.value) == CanonicalRow(o)
  {
    var d := InputDict(o);
    SelectOwnOrder(d);
    InputDictValues(o);
    SelectColumns(d, Names(d))
  }

  /** The encoded row, in the canonical feature order. */
  function FeatureRow(o: Observation): (v: Vector)
    ensures v == CanonicalRow(o)
  {
    Values(Encode(o).value)
  }

  /** On inputs the widgets allow, every pass-through entry stays within its widget's range. */
  lemma RowOnWidgetRanges(o: Observation)
    requires WidgetRange(o)
    ensures 20.0 <= FeatureRow(o)[0] <= 100.0 && 1.0 <= FeatureRow(o)[1] <= 100.0
    ensures 1.0 <= FeatureRow(o)[2] <= 4.0 && 1.0 <= FeatureRow(o)[3] <= 3.0
    ensures 0.0 <= FeatureRow(o)[7] <= 50.0
  {
  }

  /** On inputs the widgets allow, a flag is 0 exactly for "Negative", respectively "Pre". */
  lemma FlagsOnWidgetChoices(o: Observation)
    requires WidgetRange(o)
    ensures FeatureRow(o)[4] == 0.0 <==> o.er == Negative
    ensures FeatureRow(o)[5] == 0.0 <==> o.pr == Negative
    ensures FeatureRow(o)[6] == 0.0 <==> o.her2 == Negative
    ensures FeatureRow(o)[8] == 0.0 <==> o.meno == Pre
  {
    var v := CanonicalRow(o);
    assert v[4] == 0.0 <==> o.er == Negative by { StatusOnWidgetValues(o.er); }
    assert v[5] == 0.0 <==> o.pr == Negative by { StatusOnWidgetValues(o.pr); }
    assert v[6] == 0.0 <==> o.her2 == Negative by { StatusOnWidgetValues(o.her2); }
    assert v[8] == 0.0 <==> o.meno == Pre by { MenopauseOnWidgetValues(o.meno); }
    assert FeatureRow(o) == v;
  }

  /** Entries 4 to 6 and 8 are flags. */
  lemma FlagsAreBits(o: Observation, i: nat)
    requires i in {4, 5, 6, 8}
    ensures FeatureRow(o)[i] == 0.0 || FeatureRow(o)[i] == 1.0
  {
  }

  /** Observations `o` and `p` agree on the input that feeds feature entry `i`. */
  predicate AgreeOn(o: Observation, p: Observation, i: nat)
  {
    match i
    case 0 => o.age == p.age
    case 1 => o.tumorSize == p.tumorSize
    case 2 => o.tumorStage == p.tumorStage
    case 3 => o.grade == p.grade
    case 4 => o.er == p.er
    case 5 => o.pr == p.pr
    case 6 => o.her2 == p.her2
    case 7 => o.nodes == p.nodes
    case 8 => o.meno == p.meno
    case _ => true
  }

  /** Each feature entry depends on its own input alone. */
  lemma EntryDependsOnItsInput(o: Observation, p: Observation, i: nat)
    requires i < 9 && AgreeOn(o, p, i)
    ensures FeatureRow(o)[i] == FeatureRow(p)[i]
  {
    var u, w := CanonicalRow(o), CanonicalRow(p);
    assert FeatureRow(o) == u && FeatureRow(p) == w;
    assert u[i] == w[i];
  }

  /** Changing one input changes at most the entry it feeds; every other entry stays put. */
  lemma OnlyItsEntryChanges(o: Observation, p: Observation, i: nat)
    requires i < 9
    requires forall j :: 0 <= j < 9 && j != i ==> AgreeOn(o, p, j)
    ensures forall j :: 0 <= j < 9 && j != i ==> FeatureRow(o)[j] == FeatureRow(p)[j]
  {
    forall j | 0 <= j < 9 && j != i ensures FeatureRow(o)[j] == FeatureRow(p)[j] {
      EntryDependsOnItsInput(o, p, j);
    }
  }

  /** Switching the menopausal state rewrites the last entry and leaves the other eight. */
  lemma MenopauseChangesLastEntry(o: Observation, state: string)
    ensures FeatureRow(o.(meno := state))[8] == EncodeMenopause(state) as real
    ensures forall j :: 0 <= j < 8 ==> FeatureRow(o.(meno := state))[j] == FeatureRow(o)[j]
  {
    OnlyItsEntryChanges(o, o.(meno := state), 8);
  }
}
