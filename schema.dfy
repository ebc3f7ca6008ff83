/**
 * The five conditions and the positional feature vectors the app hands to
 * each condition's classifier (a.py:293-338).
 *
 * Every `predict_*` function of a.py takes one Python parameter per feature,
 * followed by the model, and copies the features, in declaration order, into
 * a one-row array.  `Form` holds one constructor per builder with exactly
 * those parameters; `FieldNames` records the declared parameter names, and
 * the lemmas below prove that position i of the vector is the parameter
 * named `FieldNames(c)[i]`.
 */
module Schema {
  import opened Options

  datatype Condition = Diabetes | Heart | Liver | Kidney | Parkinsons

  /** The dictionary key used for a condition by `model_paths`, `models`, `disease_info` and the page ids. */
  function Key(c: Condition): string {
    match c
    case Diabetes => "diabetes"
    case Heart => "heart"
    case Liver => "liver"
    case Kidney => "kidney"
    case Parkinsons => "parkinsons"
  }

  /** The condition a dictionary key stands for, if any. */
  function ConditionOfKey(key: string): (r: Option<Condition>)
    ensures r.Some? ==> Key(r.value) == key
    ensures forall c :: Key(c) == key ==> r == Some(c)
  {
    match key
    case "diabetes" => Some(Diabetes)
    case "heart" => Some(Heart)
    case "liver" => Some(Liver)
    case "kidney" => Some(Kidney)
    case "parkinsons" => Some(Parkinsons)
    case _ => None
  }

  /**
   * The feature arguments of one `predict_*` call.  Numeric widgets yield
   * ints or floats and selectboxes yield integer codes; numpy stores them all
   * as floats in the input array, so every field is a `real` here.
   */
  datatype Form =
    | DiabetesForm(pregnancies: real, glucose: real, bloodPressure: real, skinThickness: real,
                   insulin: real, bmi: real, dpf: real, age: real)
    | HeartForm(age: real, sex: real, cp: real, trestbps: real, chol: real, fbs: real,
                restecg: real, thalach: real, exang: real, oldpeak: real, slope: real,
                ca: real, thal: real)
    | LiverForm(age: real, gender: real, totalBilirubin: real, directBilirubin: real,
                alkalinePhosphatase: real, sgpt: real, sgot: real, totalProteins: real,
                albumin: real, agRatio: real)
    | KidneyForm(age: real, bp: real, sg: real, albumin: real, sugar: real, rbc: real,
                 pc: real, pcc: real, bu: real, sc: real, sod: real)
    | ParkinsonsForm(fo: real, fhi: real, flo: real, jitterPercent: real, shimmer: real,
                     rap: real, ppq: real, ddp: real, shimmerDb: real, apq3: real, apq5: real,
                     apq: real, dda: real, nhr: real, hnr: real, rpde: real, dfa: real,
                     spread1: real, spread2: real, d2: real, ppe: real)

  function ConditionOf(f: Form): Condition {
    match f
    case DiabetesForm(_, _, _, _, _, _, _, _) => Diabetes
    case HeartForm(_, _, _, _, _, _, _, _, _, _, _, _, _) => Heart
    case LiverForm(_, _, _, _, _, _, _, _, _, _) => Liver
    case KidneyForm(_, _, _, _, _, _, _, _, _, _, _) => Kidney
    case ParkinsonsForm(_, _, _, _, _, _, _, _, _, _, _, _, _, _, _, _, _, _, _, _, _) => Parkinsons
  }

  /** The number of features each classifier is fed. */
  function Arity(c: Condition): nat {
    match c
    case Diabetes => 8
    case Heart => 13
    case Liver => 10
    case Kidney => 11
    case Parkinsons => 21
  }

  /** The feature parameters of each `predict_*` function, as declared, model parameter excluded. */
  function FieldNames(c: Condition): (names: seq<string>)
    ensures |names| == Arity(c)
  {
    match c
    case Diabetes =>
      ["pregnancies", "glucose", "blood_pressure", "skin_thickness", "insulin", "bmi", "dpf", "age"]
    case Heart =>
      ["age", "sex", "cp", "trestbps", "chol", "fbs", "restecg", "thalach", "exang", "oldpeak",
       "slope", "ca", "thal"]
    case Liver =>
      ["age", "gender", "total_bilirubin", "direct_bilirubin", "alkaline_phosphatase", "sgpt",
       "sgot", "total_proteins", "albumin", "ag_ratio"]
    case Kidney =>
      ["age", "bp", "sg", "albumin", "sugar", "rbc", "pc", "pcc", "bu", "sc", "sod"]
    case Parkinsons =>
      ["fo", "fhi", "flo", "jitter_percent", "shimmer", "rap", "ppq", "ddp", "shimmer_db", "apq3",
       "apq5", "apq", "dda", "nhr", "hnr", "rpde", "dfa", "spread1", "spread2", "d2", "ppe"]
  }

  /** The argument bound to a named parameter of the form's builder; `None` for a name it does not declare. */
  function FieldValue(f: Form, name: string): (r: Option<real>)
  {
    match f
    case DiabetesForm(pregnancies, glucose, bloodPressure, skinThickness, insulin, bmi, dpf, age) =>
      (match name
       case "pregnancies" => Some(pregnancies)
       case "glucose" => Some(glucose)
       case "blood_pressure" => Some(bloodPressure)
       case "skin_thickness" => Some(skinThickness)
       case "insulin" => Some(insulin)
       case "bmi" => Some(bmi)
       case "dpf" => Some(dpf)
       case "age" => Some(age)
       case _ => None)
    case HeartForm(age, sex, cp, trestbps, chol, fbs, restecg, thalach, exang, oldpeak, slope, ca, thal) =>
      (match name
       case "age" => Some(age)
       case "sex" => Some(sex)
       case "cp" => Some(cp)
       case "trestbps" => Some(trestbps)
       case "chol" => Some(chol)
       case "fbs" => Some(fbs)
       case "restecg" => Some(restecg)
       case "thalach" => Some(thalach)
       case "exang" => Some(exang)
       case "oldpeak" => Some(oldpeak)
       case "slope" => Some(slope)
       case "ca" => Some(ca)
       case "thal" => Some(thal)
       case _ => None)
    case LiverForm(age, gender, totalBilirubin, directBilirubin, alkalinePhosphatase, sgpt, sgot,
                   totalProteins, albumin, agRatio) =>
      (match name
       case "age" => Some(age)
       case "gender" => Some(gender)
       case "total_bilirubin" => Some(totalBilirubin)
       case "direct_bilirubin" => Some(directBilirubin)
       case "alkaline_phosphatase" => Some(alkalinePhosphatase)
       case "sgpt" => Some(sgpt)
       case "sgot" => Some(sgot)
       case "total_proteins" => Some(totalProteins)
       case "albumin" => Some(albumin)
       case "ag_ratio" => Some(agRatio)
       case _ => None)
    case KidneyForm(age, bp, sg, albumin, sugar, rbc, pc, pcc, bu, sc, sod) =>
      (match name
       case "age" => Some(age)
       case "bp" => Some(bp)
       case "sg" => Some(sg)
       case "albumin" => Some(albumin)
       case "sugar" => Some(sugar)
       case "rbc" => Some(rbc)
       case "pc" => Some(pc)
       case "pcc" => Some(pcc)
       case "bu" => Some(bu)
       case "sc" => Some(sc)
       case "sod" => Some(sod)
       case _ => None)
    case ParkinsonsForm(fo, fhi, flo, jitterPercent, shimmer, rap, ppq, ddp, shimmerDb, apq3, apq5,
                        apq, dda, nhr, hnr, rpde, dfa, spread1, spread2, d2, ppe) =>
      (match name
       case "fo" => Some(fo)
       case "fhi" => Some(fhi)
       case "flo" => Some(flo)
       case "jitter_percent" => Some(jitterPercent)
       case "shimmer" => Some(shimmer)
       case "rap" => Some(rap)
       case "ppq" => Some(ppq)
       case "ddp" => Some(ddp)
       case "shimmer_db" => Some(shimmerDb)
       case "apq3" => Some(apq3)
       case "apq5" => Some(apq5)
       case "apq" => Some(apq)
       case "dda" => Some(dda)
       case "nhr" => Some(nhr)
       case "hnr" => Some(hnr)
       case "rpde" => Some(rpde)
       case "dfa" => Some(dfa)
       case "spread1" => Some(spread1)
       case "spread2" => Some(spread2)
       case "d2" => Some(d2)
       case "ppe" => Some(ppe)
       case _ => None)
  }

  /** The single row `np.array([[...]])` holds: the form's arguments in builder order. */
  function FeatureVector(f: Form): (v: seq<real>)
    ensures |v| == Arity(ConditionOf(f))
  {
    match f
    case DiabetesForm(pregnancies, glucose, bloodPressure, skinThickness, insulin, bmi, dpf, age) =>
      [pregnancies, glucose, bloodPressure, skinThickness, insulin, bmi, dpf, age]
    case HeartForm(age, sex, cp, trestbps, chol, fbs, restecg, thalach, exang, oldpeak, slope, ca, thal) =>
      [age, sex, cp, trestbps, chol, fbs, restecg, thalach, exang, oldpeak, slope, ca, thal]
    case LiverForm(age, gender, totalBilirubin, directBilirubin, alkalinePhosphatase, sgpt, sgot,
                   totalProteins, albumin, agRatio) =>
      [age, gender, totalBilirubin, directBilirubin, alkalinePhosphatase, sgpt, sgot,
       totalProteins, albumin, agRatio]
    case KidneyForm(age, bp, sg, albumin, sugar, rbc, pc, pcc, bu, sc, sod) =>
      [age, bp, sg, albumin, sugar, rbc, pc, pcc, bu, sc, sod]
    case ParkinsonsForm(fo, fhi, flo, jitterPercent, shimmer, rap, ppq, ddp, shimmerDb, apq3, apq5,
                        apq, dda, nhr, hnr, rpde, dfa, spread1, spread2, d2, ppe) =>
      [fo, fhi, flo, jitterPercent, shimmer, rap, ppq, ddp, shimmerDb, apq3, apq5,
       apq, dda, nhr, hnr, rpde, dfa, spread1, spread2, d2, ppe]
  }

  /** `v` is a row laid out by the condition's schema: one entry per declared parameter, in order. */
  predicate IsSchemaRow(f: Form, v: seq<real>) {
    var names := FieldNames(ConditionOf(f));
    |v| == |names| && forall i :: 0 <= i < |v| ==> FieldValue(f, names[i]) == Some(v[i])
  }

  /** Reads a row back into the builder's arguments: the inverse of `FeatureVector`. */
  function FromVector(c: Condition, v: seq<real>): (f: Form)
    requires |v| == Arity(c)
    ensures ConditionOf(f) == c
    ensures FeatureVector(f) == v
  {
    match c
    case Diabetes => DiabetesForm(v[0], v[1], v[2], v[3], v[4], v[5], v[6], v[7])
    case Heart => HeartForm(v[0], v[1], v[2], v[3], v[4], v[5], v[6], v[7], v[8], v[9], v[10], v[11], v[12])
    case Liver => LiverForm(v[0], v[1], v[2], v[3], v[4], v[5], v[6], v[7], v[8], v[9])
    case Kidney => KidneyForm(v[0], v[1], v[2], v[3], v[4], v[5], v[6], v[7], v[8], v[9], v[10])
    case Parkinsons =>
      ParkinsonsForm(v[0], v[1], v[2], v[3], v[4], v[5], v[6], v[7], v[8], v[9], v[10],
                     v[11], v[12], v[13], v[14], v[15], v[16], v[17], v[18], v[19], v[20])
  }

  /** No schema declares a parameter name twice. */
  lemma SchemaWellFormed(c: Condition)
    ensures forall i, j :: 0 <= i < j < |FieldNames(c)| ==> FieldNames(c)[i] != FieldNames(c)[j]
  {
    // A form whose i-th argument is i tells the parameters apart by their values.
    var f := FromVector(c, seq(Arity(c), k => k as real));
    forall i, j | 0 <= i < j < |FieldNames(c)| ensures FieldNames(c)[i] != FieldNames(c)[j] {
      FieldAt(f, i);
      FieldAt(f, j);
    }
  }

  /** Position i of the vector holds the argument of the i-th declared parameter. */
  lemma VectorFollowsSchema(f: Form)
    ensures IsSchemaRow(f, FeatureVector(f))
  {
    var v, names := FeatureVector(f), FieldNames(ConditionOf(f));
    forall i | 0 <= i < |v|
      ensures FieldValue(f, names[i]) == Some(v[i])
    {
      FieldAt(f, i);
    }
  }

  lemma FieldAt(f: Form, i: nat)
    requires i < Arity(ConditionOf(f))
    ensures FieldValue(f, FieldNames(ConditionOf(f))[i]) == Some(FeatureVector(f)[i])
  {
    match f
    case DiabetesForm(_, _, _, _, _, _, _, _) =>
    case HeartForm(_, _, _, _, _, _, _, _, _, _, _, _, _) =>
    case LiverForm(_, _, _, _, _, _, _, _, _, _) =>
    case KidneyForm(_, _, _, _, _, _, _, _, _, _, _) =>
    case ParkinsonsForm(_, _, _, _, _, _, _, _, _, _, _, _, _, _, _, _, _, _, _, _, _) =>
      ParkinsonsFieldAt(f, i);
  }

  lemma ParkinsonsFieldAt(f: Form, i: nat)
    requires f.ParkinsonsForm? && i < Arity(Parkinsons)
    ensures FieldValue(f, FieldNames(Parkinsons)[i]) == Some(FeatureVector(f)[i])
  {
  }

  /** The schema fixes the row completely: no other ordering of the arguments satisfies it. */
  lemma SchemaRowUnique(f: Form)
    ensures forall v :: IsSchemaRow(f, v) ==> v == FeatureVector(f)
  {
    VectorFollowsSchema(f);
    var w := FeatureVector(f);
    var names := FieldNames(ConditionOf(f));
    forall v | IsSchemaRow(f, v) ensures v == w {
      forall i | 0 <= i < |v|
        ensures v[i] == w[i]
      {
        assert FieldValue(f, names[i]) == Some(v[i]);
        assert FieldValue(f, names[i]) == Some(w[i]);
      }
    }
  }

  /** The vector loses nothing: reading it back gives the builder's arguments. */
  lemma FormRoundTrip(f: Form)
    ensures FromVector(ConditionOf(f), FeatureVector(f)) == f
  {
  }

  /** A name reads an argument exactly when the form's builder declares a parameter of that name. */
  lemma FieldValueDeclared(f: Form, name: string)
    ensures FieldValue(f, name).Some? <==> name in FieldNames(ConditionOf(f))
  {
    match f
    case DiabetesForm(_, _, _, _, _, _, _, _) =>
    case HeartForm(_, _, _, _, _, _, _, _, _, _, _, _, _) =>
    case LiverForm(_, _, _, _, _, _, _, _, _, _) =>
    case KidneyForm(_, _, _, _, _, _, _, _, _, _, _) =>
    case ParkinsonsForm(_, _, _, _, _, _, _, _, _, _, _, _, _, _, _, _, _, _, _, _, _) =>
      ParkinsonsDeclared(f, name);
  }

  lemma ParkinsonsDeclared(f: Form, name: string)
    requires f.ParkinsonsForm?
    ensures FieldValue(f, name).Some? <==> name in FieldNames(Parkinsons)
  {
  }
}
