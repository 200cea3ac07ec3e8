/**
 * The feature encoder of the medical-cost prediction page: the form's
 * answers (age, BMI, number of children and three category labels) become
 * the 11-entry numeric row the random-forest model was trained on, each
 * category expanded into one-hot indicators in a fixed column order.
 *
 * The category answers are kept as the strings the form hands over, so the
 * model also says what happens to a label the form never offers.
 */
module FeatureEncoder {

  datatype Option<T> = None | Some(value: T)

  // The labels of the sex radio button.
  const Male: string := "男性"
  const Female: string := "女性"
  // The labels of the smoker radio button ("yes", "no").
  const SmokerYes: string := "是"
  const SmokerNo: string := "否"
  // The labels of the region select box.
  const Northeast: string := "东北部"
  const Southeast: string := "东南部"
  const Northwest: string := "西北部"
  const Southwest: string := "西南部"

  /** The options each form widget offers, in the order the form lists them. */
  const SexOptions: seq<string> := [Male, Female]
  const SmokerOptions: seq<string> := [SmokerYes, SmokerNo]
  const RegionOptions: seq<string> := [Southeast, Southwest, Northeast, Northwest]

  /** The region labels in the order the encoder tests them, which is also
      the order of the four region columns. */
  const RegionBranches: seq<string> := [Northeast, Southeast, Northwest, Southwest]

  /** The names of the eleven columns, in the order of the encoded row. */
  const Columns: seq<string> :=
    ["age", "bmi", "children", "sex_female", "sex_male",
     "smoke_no", "smoke_yes", "region_northeast",
     "region_southeast", "region_northwest", "region_southwest"]

  /** One submitted form: the numbers as entered, the labels as chosen. */
  datatype Applicant = Applicant(
    age: int,
    bmi: real,
    children: int,
    sex: string,
    smoker: string,
    region: string)

  /** Every label of x is one the form's widgets can produce. */
  predicate OfferedByForm(x: Applicant) {
    x.sex in SexOptions && x.smoker in SmokerOptions && x.region in RegionOptions
  }

  predicate IsFlag(r: real) {
    r == 0.0 || r == 1.0
  }

  function Flag(b: bool): real {
    if b then 1.0 else 0.0
  }

  function Sum(s: seq<real>): real {
    if s == [] then 0.0 else s[0] + Sum(s[1..])
  }

  /** The pair (sex_female, sex_male): female exactly for the female label,
      male for every other label. */
  function SexFlags(sex: string): (r: (real, real))
    ensures IsFlag(r.0) && IsFlag(r.1) && r.0 + r.1 == 1.0
    ensures r.0 == 1.0 <==> sex == Female
  {
    if sex == Female then (1.0, 0.0) else (0.0, 1.0)
  }

  /** The pair (smoke_no, smoke_yes): yes exactly for the "yes" label,
      no for every other label. */
  function SmokerFlags(smoker: string): (r: (real, real))
    ensures IsFlag(r.0) && IsFlag(r.1) && r.0 + r.1 == 1.0
    ensures r.1 == 1.0 <==> smoker == SmokerYes
  {
    if smoker == SmokerYes then (0.0, 1.0) else (1.0, 0.0)
  }

  /** The four region indicators (northeast, southeast, northwest, southwest).
      The chain of tests has no final alternative, so a label that matches
      none of the four leaves all four at 0. */
  function RegionFlags(region: string): (r: seq<real>)
    ensures |r| == |RegionBranches|
    ensures forall i :: 0 <= i < |r| ==> r[i] == Flag(region == RegionBranches[i])
  {
    if region == Northeast then [1.0, 0.0, 0.0, 0.0]
    else if region == Southeast then [0.0, 1.0, 0.0, 0.0]
    else if region == Northwest then [0.0, 0.0, 1.0, 0.0]
    else if region == Southwest then [0.0, 0.0, 0.0, 1.0]
    else [0.0, 0.0, 0.0, 0.0]
  }

  /** What the column with the given name holds for applicant x, defined
      column by column rather than by position. */
  function FeatureValue(x: Applicant, column: string): real
    requires column in Columns
  {
    if column == "age" then x.age as real
    else if column == "bmi" then x.bmi
    else if column == "children" then x.children as real
    else if column == "sex_female" then Flag(x.sex == Female)
    else if column == "sex_male" then Flag(x.sex != Female)
    else if column == "smoke_no" then Flag(x.smoker != SmokerYes)
    else if column == "smoke_yes" then Flag(x.smoker == SmokerYes)
    else if column == "region_northeast" then Flag(x.region == Northeast)
    else if column == "region_southeast" then Flag(x.region == Southeast)
    else if column == "region_northwest" then Flag(x.region == Northwest)
    else Flag(x.region == Southwest)
  }

  /** The row handed to the model. Position i holds the value of column
      Columns[i]; the three numbers pass through unchanged. */
  function Encode(x: Applicant): (v: seq<real>)
    ensures |v| == |Columns| == 11
    ensures v[0] == x.age as real && v[1] == x.bmi && v[2] == x.children as real
    ensures forall i :: 0 <= i < |v| ==> v[i] == FeatureValue(x, Columns[i])
  {
    var (sexFemale, sexMale) := SexFlags(x.sex);
    var (smokeNo, smokeYes) := SmokerFlags(x.smoker);
    var region := RegionFlags(x.region);
    [x.age as real, x.bmi, x.children as real, sexFemale, sexMale,
     smokeNo, smokeYes, region[0],
     region[1], region[2], region[3]]
  }

  /** A male non-smoker of 30 from the southeast, BMI 25.5, one child. */
  lemma EncodeExample()
    ensures Encode(Applicant(30, 25.5, 1, Male, SmokerNo, Southeast))
         == [30.0, 25.5, 1.0, 0.0, 1.0, 1.0, 0.0, 0.0, 1.0, 0.0, 0.0]
  {
  }

  lemma IndicatorsAreFlags(x: Applicant)
    ensures forall i :: 3 <= i < 11 ==> IsFlag(Encode(x)[i])
  {
  }

  lemma {:induction false} SumOfTwo(a: real, b: real)
    ensures Sum([a, b]) == a + b
  {
    assert [a, b][1..] == [b];
    assert [b][1..] == [];
    assert Sum([b]) == b + Sum([]);
  }

  lemma {:induction false} SumOfFour(s: seq<real>)
    requires |s| == 4
    ensures Sum(s) == s[0] + s[1] + s[2] + s[3]
  {
    assert s[1..][1..] == s[2..];
    assert s[2..][1..] == s[3..];
    assert s[3..][1..] == [];
    assert Sum(s[3..]) == s[3] + Sum([]);
    assert Sum(s[2..]) == s[2] + Sum(s[3..]);
    assert Sum(s[1..]) == s[1] + Sum(s[2..]);
  }

  /** Sex and smoker groups always hold exactly one 1; the region group does
      exactly when the region label is one the select box offers. */
  lemma {:induction false} OneHotGroups(x: Applicant)
    ensures Sum(Encode(x)[3..5]) == 1.0
    ensures Sum(Encode(x)[5..7]) == 1.0
    ensures Sum(Encode(x)[7..11]) == 1.0 <==> x.region in RegionOptions
  {
    var v := Encode(x);
    assert v[3..5] == [v[3], v[4]];
    assert v[5..7] == [v[5], v[6]];
    SumOfTwo(v[3], v[4]);
    SumOfTwo(v[5], v[6]);
    SumOfFour(v[7..11]);
  }

  /** A region label outside the four tested ones gives an all-zero region
      group: no error is raised. */
  lemma UnmatchedRegionIsAllZero(x: Applicant)
    requires x.region !in RegionBranches
    ensures Encode(x)[7..11] == [0.0, 0.0, 0.0, 0.0]
  {
  }

  /** Every label the form offers sets exactly its own indicator. */
  lemma OfferedRegionSetsItsOwnFlag(x: Applicant, i: nat)
    requires i < 4 && x.region == RegionBranches[i]
    ensures Encode(x)[7 + i] == 1.0
    ensures forall k :: 7 <= k < 11 && k != 7 + i ==> Encode(x)[k] == 0.0
  {
  }

  function DecodeSex(female: real, male: real): Option<string> {
    if female == 1.0 && male == 0.0 then Some(Female)
    else if female == 0.0 && male == 1.0 then Some(Male)
    else None
  }

  function DecodeSmoker(no: real, yes: real): Option<string> {
    if no == 0.0 && yes == 1.0 then Some(SmokerYes)
    else if no == 1.0 && yes == 0.0 then Some(SmokerNo)
    else None
  }

  function DecodeRegion(flags: seq<real>): Option<string> {
    if flags == [1.0, 0.0, 0.0, 0.0] then Some(Northeast)
    else if flags == [0.0, 1.0, 0.0, 0.0] then Some(Southeast)
    else if flags == [0.0, 0.0, 1.0, 0.0] then Some(Northwest)
    else if flags == [0.0, 0.0, 0.0, 1.0] then Some(Southwest)
    else None
  }

  predicate IsWhole(r: real) {
    r == r.Floor as real
  }

  /** Reads an applicant back from a row; None when the row is not the
      encoding of any form submission. */
  function DecodeVector(v: seq<real>): Option<Applicant> {
    if |v| != |Columns| || !IsWhole(v[0]) || !IsWhole(v[2]) then None
    else
      match (DecodeSex(v[3], v[4]), DecodeSmoker(v[5], v[6]), DecodeRegion(v[7..11]))
      case (Some(sex), Some(smoker), Some(region)) =>
        Some(Applicant(v[0].Floor, v[1], v[2].Floor, sex, smoker, region))
      case _ => None
  }

  /** The encoding of a form submission loses nothing: it decodes back to
      the submission. */
  lemma {:induction false} DecodeAfterEncode(x: Applicant)
    requires OfferedByForm(x)
    ensures DecodeVector(Encode(x)) == Some(x)
  {
    var v := Encode(x);
    assert v[7..11] == RegionFlags(x.region);
    assert (x.age as real).Floor == x.age;
    assert (x.children as real).Floor == x.children;
  }

  /** Conversely, every row that decodes is the encoding of the submission
      it decodes to, and that submission uses only offered labels. */
  lemma EncodeAfterDecode(v: seq<real>, x: Applicant)
    requires DecodeVector(v) == Some(x)
    ensures OfferedByForm(x)
    ensures Encode(x) == v
  {
  }

  /** Two different form submissions never reach the model as the same row. */
  lemma EncodeIsInjective(x: Applicant, y: Applicant)
    requires OfferedByForm(x) && OfferedByForm(y)
    requires Encode(x) == Encode(y)
    ensures x == y
  {
  }
}
