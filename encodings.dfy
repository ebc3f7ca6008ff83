/**
 * The categorical inputs of the prediction forms.  Each selectbox is given
 * a list of `(label, code)` pairs, shows the labels and yields the chosen
 * pair, of which the page keeps the code (`st.selectbox(...)[1]`).
 */
module Encodings {
  import opened Options

  type CodeTable = seq<(string, int)>

  // Heart disease form (a.py:621-643); the liver form's gender selectbox (a.py:685) reuses SEX_OPTIONS.
  const SEX_OPTIONS: CodeTable := [("Male", 1), ("Female", 0)]
  const CHEST_PAIN_OPTIONS: CodeTable :=
    [("Typical Angina", 0), ("Atypical Angina", 1), ("Non-anginal Pain", 2), ("Asymptomatic", 3)]
  /** Fasting blood sugar > 120 mg/dl and exercise induced angina. */
  const NO_YES_OPTIONS: CodeTable := [("No", 0), ("Yes", 1)]
  const RESTING_ECG_OPTIONS: CodeTable :=
    [("Normal", 0), ("ST-T Wave Abnormality", 1), ("Left Ventricular Hypertrophy", 2)]
  const SLOPE_OPTIONS: CodeTable := [("Upsloping", 0), ("Flat", 1), ("Downsloping", 2)]
  const THAL_OPTIONS: CodeTable := [("Normal", 0), ("Fixed Defect", 1), ("Reversible Defect", 2)]

  // Kidney disease form (a.py:803-816).
  const SPECIFIC_GRAVITY_OPTIONS: CodeTable :=
    [("1.005", 0), ("1.010", 1), ("1.015", 2), ("1.020", 3), ("1.025", 4)]
  /** Albumin and sugar grades. */
  const GRADE_OPTIONS: CodeTable := [("0", 0), ("1", 1), ("2", 2), ("3", 3), ("4", 4), ("5", 5)]
  /** Red blood cells and pus cell. */
  const NORMAL_ABNORMAL_OPTIONS: CodeTable := [("Normal", 0), ("Abnormal", 1)]
  const PUS_CELL_CLUMPS_OPTIONS: CodeTable := [("Not Present", 0), ("Present", 1)]

  /** The specific gravity selectbox opens on its third option (`index=2`). */
  const SPECIFIC_GRAVITY_DEFAULT: nat := 2

  predicate DistinctLabels(t: CodeTable) {
    forall i, j :: 0 <= i < j < |t| ==> t[i].0 != t[j].0
  }

  predicate DistinctCodes(t: CodeTable) {
    forall i, j :: 0 <= i < j < |t| ==> t[i].1 != t[j].1
  }

  /** A table whose labels are distinct and whose codes are distinct and lie in 0..|t|-1. */
  predicate IsCodeTable(t: CodeTable) {
    DistinctLabels(t) && DistinctCodes(t) && forall i :: 0 <= i < |t| ==> 0 <= t[i].1 < |t|
  }

  /** The code a page keeps when the user picks the option at `index`. */
  function Choose(t: CodeTable, index: nat): (code: int)
    requires index < |t|
    ensures IsCodeTable(t) ==> 0 <= code < |t|
    ensures DistinctCodes(t) ==> forall j :: 0 <= j < |t| && j != index ==> t[j].1 != code
  {
    t[index].1
  }

  /** The code recorded for a label, if the table shows it. */
  function CodeOf(t: CodeTable, name: string): Option<int> {
    if t == [] then None
    else if t[0].0 == name then Some(t[0].1)
    else CodeOf(t[1..], name)
  }

  /** The label that is encoded as `code`, if any. */
  function LabelOf(t: CodeTable, code: int): Option<string> {
    if t == [] then None
    else if t[0].1 == code then Some(t[0].0)
    else LabelOf(t[1..], code)
  }

  /** The set of codes a table uses. */
  function Codes(t: CodeTable): set<int> {
    if t == [] then {} else {t[0].1} + Codes(t[1..])
  }

  /** Looking up an option's label gives its code, and looking up that code gives the label back. */
  lemma {:induction false} LookupRoundTrip(t: CodeTable, i: nat)
    requires DistinctLabels(t) && DistinctCodes(t) && i < |t|
    ensures CodeOf(t, t[i].0) == Some(t[i].1)
    ensures LabelOf(t, t[i].1) == Some(t[i].0)
  {
    if i > 0 {
      assert t[0].0 != t[i].0 && t[0].1 != t[i].1;
      assert t[1..][i - 1] == t[i];
      LookupRoundTrip(t[1..], i - 1);
    }
  }

  lemma {:induction false} LabelOfFindsCodes(t: CodeTable, code: int)
    ensures LabelOf(t, code).Some? <==> code in Codes(t)
  {
    if t != [] {
      LabelOfFindsCodes(t[1..], code);
    }
  }

  lemma {:induction false} CodesSize(t: CodeTable)
    requires DistinctCodes(t)
    ensures |Codes(t)| == |t|
    ensures forall c :: c in Codes(t) ==> exists i :: 0 <= i < |t| && t[i].1 == c
  {
    if t != [] {
      assert DistinctCodes(t[1..]) by {
        forall i, j | 0 <= i < j < |t| - 1 ensures t[1..][i].1 != t[1..][j].1 {
          assert t[i + 1].1 != t[j + 1].1;
        }
      }
      CodesSize(t[1..]);
      forall c | c in Codes(t[1..]) ensures c != t[0].1 {
        var i :| 0 <= i < |t| - 1 && t[1..][i].1 == c;
        assert t[i + 1].1 != t[0].1;
      }
      forall c | c in Codes(t) ensures exists i :: 0 <= i < |t| && t[i].1 == c {
        if c != t[0].1 {
          var i :| 0 <= i < |t| - 1 && t[1..][i].1 == c;
          assert t[i + 1].1 == c;
        }
      }
    }
  }

  /** The integers 0..n-1. */
  function Range(n: nat): (r: set<int>)
    ensures forall c :: c in r <==> 0 <= c < n
    ensures |r| == n
  {
    if n == 0 then {} else Range(n - 1) + {n - 1}
  }

  /**
   * Contiguity: in a code table every code 0..|t|-1 is used by exactly one
   * option, so decoding a code back to its label never fails on that range.
   */
  lemma CodesCoverRange(t: CodeTable)
    requires IsCodeTable(t)
    ensures forall c :: 0 <= c < |t| ==> LabelOf(t, c).Some?
  {
    var range := Range(|t|);
    CodesSize(t);
    assert Codes(t) <= range;
    assert |range - Codes(t)| == 0;
    forall c | 0 <= c < |t| ensures LabelOf(t, c).Some? {
      assert c in range;
      LabelOfFindsCodes(t, c);
    }
  }

  /** Every selectbox table of the heart, liver and kidney forms is a code table. */
  lemma SelectboxTablesAreCodeTables()
    ensures IsCodeTable(SEX_OPTIONS) && IsCodeTable(NO_YES_OPTIONS)
    ensures IsCodeTable(NORMAL_ABNORMAL_OPTIONS) && IsCodeTable(PUS_CELL_CLUMPS_OPTIONS)
    ensures IsCodeTable(CHEST_PAIN_OPTIONS) && IsCodeTable(RESTING_ECG_OPTIONS)
    ensures IsCodeTable(SLOPE_OPTIONS) && IsCodeTable(THAL_OPTIONS)
    ensures IsCodeTable(SPECIFIC_GRAVITY_OPTIONS) && IsCodeTable(GRADE_OPTIONS)
  {
    BinaryTablesAreCodeTables();
    ChestPainIsCodeTable();
    RestingEcgIsCodeTable();
    SlopeIsCodeTable();
    ThalIsCodeTable();
    SpecificGravityIsCodeTable();
    GradeIsCodeTable();
  }

  /** The two-option tables are code tables. */
  lemma BinaryTablesAreCodeTables()
    ensures IsCodeTable(SEX_OPTIONS) && IsCodeTable(NO_YES_OPTIONS) && IsCodeTable(NORMAL_ABNORMAL_OPTIONS) && IsCodeTable(PUS_CELL_CLUMPS_OPTIONS)
  {
    assert DistinctLabels(SEX_OPTIONS) && DistinctCodes(SEX_OPTIONS);
    assert DistinctLabels(NO_YES_OPTIONS) && DistinctCodes(NO_YES_OPTIONS);
    assert DistinctLabels(NORMAL_ABNORMAL_OPTIONS) && DistinctCodes(NORMAL_ABNORMAL_OPTIONS);
    assert DistinctLabels(PUS_CELL_CLUMPS_OPTIONS) && DistinctCodes(PUS_CELL_CLUMPS_OPTIONS);
  }

  lemma ChestPainIsCodeTable()
    ensures IsCodeTable(CHEST_PAIN_OPTIONS)
  {
    assert DistinctLabels(CHEST_PAIN_OPTIONS) && DistinctCodes(CHEST_PAIN_OPTIONS);
  }

  lemma RestingEcgIsCodeTable()
    ensures IsCodeTable(RESTING_ECG_OPTIONS)
  {
    assert DistinctLabels(RESTING_ECG_OPTIONS) && DistinctCodes(RESTING_ECG_OPTIONS);
  }

  lemma SlopeIsCodeTable()
    ensures IsCodeTable(SLOPE_OPTIONS)
  {
    assert DistinctLabels(SLOPE_OPTIONS) && DistinctCodes(SLOPE_OPTIONS);
  }

  lemma ThalIsCodeTable()
    ensures IsCodeTable(THAL_OPTIONS)
  {
    assert DistinctLabels(THAL_OPTIONS) && DistinctCodes(THAL_OPTIONS);
  }

  lemma SpecificGravityIsCodeTable()
    ensures IsCodeTable(SPECIFIC_GRAVITY_OPTIONS)
  {
    assert DistinctLabels(SPECIFIC_GRAVITY_OPTIONS) && DistinctCodes(SPECIFIC_GRAVITY_OPTIONS);
  }

  lemma GradeIsCodeTable()
    ensures IsCodeTable(GRADE_OPTIONS)
  {
    assert DistinctLabels(GRADE_OPTIONS) && DistinctCodes(GRADE_OPTIONS);
  }

  /** The sample encodings: Male is 1, Female 0, and the specific gravity opens on '1.015', code 2. */
  lemma SampleEncodings()
    ensures CodeOf(SEX_OPTIONS, "Male") == Some(1) && CodeOf(SEX_OPTIONS, "Female") == Some(0)
    ensures CodeOf(SPECIFIC_GRAVITY_OPTIONS, "1.005") == Some(0)
    ensures CodeOf(SPECIFIC_GRAVITY_OPTIONS, "1.025") == Some(4)
    ensures SPECIFIC_GRAVITY_OPTIONS[SPECIFIC_GRAVITY_DEFAULT] == ("1.015", 2)
  {
    SelectboxTablesAreCodeTables();
    LookupRoundTrip(SEX_OPTIONS, 0);
    LookupRoundTrip(SEX_OPTIONS, 1);
    LookupRoundTrip(SPECIFIC_GRAVITY_OPTIONS, 0);
    LookupRoundTrip(SPECIFIC_GRAVITY_OPTIONS, 4);
  }
}
