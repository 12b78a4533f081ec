/** The dataset row: thirteen single-precision features and the boolean label (`target`),
    with a getter and a setter keyed by feature. */
module Rows {
  import opened Wrappers

  /** A single-precision value as read from the CSV file: a finite number or
      one of the non-finite values. */
  datatype Float = Finite(value: real) | NaN | PositiveInfinity | NegativeInfinity {
    predicate IsFinite() { Finite? }
  }

  /** One row of the dataset. */
  datatype HeartData = HeartData(
    age: Float, sex: Float, cp: Float, trestbps: Float, chol: Float,
    fbs: Float, restecg: Float, thalach: Float, exang: Float, oldpeak: Float,
    slope: Float, ca: Float, thal: Float,
    target: bool)

  datatype Feature =
    Age | Sex | Cp | Trestbps | Chol | Fbs | Restecg | Thalach | Exang | Oldpeak | Slope | Ca | Thal

  /** The feature names in column order, as the services list them. */
  const FeatureNames: seq<string> :=
    ["Age", "Sex", "Cp", "Trestbps", "Chol", "Fbs",
     "Restecg", "Thalach", "Exang", "Oldpeak", "Slope", "Ca", "Thal"]

  const FeatureCount: nat := 13

  function FeatureName(f: Feature): string {
    match f
    case Age => "Age"
    case Sex => "Sex"
    case Cp => "Cp"
    case Trestbps => "Trestbps"
    case Chol => "Chol"
    case Fbs => "Fbs"
    case Restecg => "Restecg"
    case Thalach => "Thalach"
    case Exang => "Exang"
    case Oldpeak => "Oldpeak"
    case Slope => "Slope"
    case Ca => "Ca"
    case Thal => "Thal"
  }

  /** The feature in column `i`. */
  function FeatureAt(i: int): (f: Feature)
    requires 0 <= i < FeatureCount
    ensures FeatureName(f) == FeatureNames[i]
  {
    [Age, Sex, Cp, Trestbps, Chol, Fbs, Restecg, Thalach, Exang, Oldpeak, Slope, Ca, Thal][i]
  }

  /** The string dispatch of the services: a known name selects its column,
      any other name selects nothing. */
  function FeatureOfName(name: string): (r: Option<Feature>)
    ensures r.Some? <==> name in FeatureNames
    ensures r.Some? ==> FeatureName(r.value) == name
  {
    match name
    case "Age" => Some(Age)
    case "Sex" => Some(Sex)
    case "Cp" => Some(Cp)
    case "Trestbps" => Some(Trestbps)
    case "Chol" => Some(Chol)
    case "Fbs" => Some(Fbs)
    case "Restecg" => Some(Restecg)
    case "Thalach" => Some(Thalach)
    case "Exang" => Some(Exang)
    case "Oldpeak" => Some(Oldpeak)
    case "Slope" => Some(Slope)
    case "Ca" => Some(Ca)
    case "Thal" => Some(Thal)
    case _ => None
  }

  lemma FeatureNamesDistinct()
    ensures |FeatureNames| == FeatureCount
    ensures forall i, j :: 0 <= i < j < |FeatureNames| ==> FeatureNames[i] != FeatureNames[j]
  {
  }

  /** Every feature's name resolves back to that feature. */
  lemma FeatureNameRoundTrip(f: Feature)
    ensures FeatureName(f) in FeatureNames
    ensures FeatureOfName(FeatureName(f)) == Some(f)
  {
  }

  function Get(r: HeartData, f: Feature): Float {
    match f
    case Age => r.age
    case Sex => r.sex
    case Cp => r.cp
    case Trestbps => r.trestbps
    case Chol => r.chol
    case Fbs => r.fbs
    case Restecg => r.restecg
    case Thalach => r.thalach
    case Exang => r.exang
    case Oldpeak => r.oldpeak
    case Slope => r.slope
    case Ca => r.ca
    case Thal => r.thal
  }

  function Set(r: HeartData, f: Feature, v: Float): (r': HeartData)
    ensures Get(r', f) == v
    ensures forall g :: g != f ==> Get(r', g) == Get(r, g)
    ensures r'.target == r.target
  {
    match f
    case Age => r.(age := v)
    case Sex => r.(sex := v)
    case Cp => r.(cp := v)
    case Trestbps => r.(trestbps := v)
    case Chol => r.(chol := v)
    case Fbs => r.(fbs := v)
    case Restecg => r.(restecg := v)
    case Thalach => r.(thalach := v)
    case Exang => r.(exang := v)
    case Oldpeak => r.(oldpeak := v)
    case Slope => r.(slope := v)
    case Ca => r.(ca := v)
    case Thal => r.(thal := v)
  }

  /** Writing back the value just read leaves the row as it was. */
  lemma SetGet(r: HeartData, f: Feature)
    ensures Set(r, f, Get(r, f)) == r
  {
  }

  /** Two rows that agree on the label and on every feature are equal. */
  lemma RowExtensionality(r: HeartData, r': HeartData)
    requires r.target == r'.target
    requires forall g :: Get(r, g) == Get(r', g)
    ensures r == r'
  {
    assert Get(r, Age) == Get(r', Age) && Get(r, Sex) == Get(r', Sex);
    assert Get(r, Cp) == Get(r', Cp) && Get(r, Trestbps) == Get(r', Trestbps);
    assert Get(r, Chol) == Get(r', Chol) && Get(r, Fbs) == Get(r', Fbs);
    assert Get(r, Restecg) == Get(r', Restecg) && Get(r, Thalach) == Get(r', Thalach);
    assert Get(r, Exang) == Get(r', Exang) && Get(r, Oldpeak) == Get(r', Oldpeak);
    assert Get(r, Slope) == Get(r', Slope) && Get(r, Ca) == Get(r', Ca);
    assert Get(r, Thal) == Get(r', Thal);
  }

  /** The values of one feature across the rows, in row order. */
  function Column(data: seq<HeartData>, f: Feature): (r: seq<Float>)
    ensures |r| == |data|
    ensures forall i :: 0 <= i < |data| ==> r[i] == Get(data[i], f)
  {
    seq(|data|, i requires 0 <= i < |data| => Get(data[i], f))
  }
}
