/**
 * The one-time load pass that fills the model registry (`load_models`, a.py:216-239).
 *
 * Opening and unpickling a file is outside the model: the pass takes the
 * result of each attempt as a function from path to `LoadOutcome`.  The
 * sidebar diagnostics the pass emits are collected as a list of notices.
 */
module Registry {
  import opened Options

  /** A trained classifier, seen only through its two scikit-learn entry points. */
  datatype Classifier = Classifier(
    predict: seq<seq<real>> -> seq<int>,
    predictProba: seq<seq<real>> -> seq<seq<real>>)

  /** What opening and unpickling one model file produced. */
  datatype LoadOutcome =
    | Loaded(classifier: Classifier)
    | FileNotFound              // `FileNotFoundError` from `open`
    | LoadFailed(message: string)  // any other exception, with `str(e)`

  datatype NoticeLevel = SuccessNotice | ErrorNotice

  /** One `st.sidebar.success` or `st.sidebar.error` call. */
  datatype Notice = Notice(level: NoticeLevel, text: string)

  /** The `model_paths` dictionary, in its iteration (insertion) order. */
  const MODEL_PATHS: seq<(string, string)> := [
    ("diabetes", "models/diabetes_model.pkl"),
    ("heart", "models/heart_disease_model.pkl"),
    ("liver", "models/liver_disease_model.pkl"),
    ("kidney", "models/kidney_disease_model.pkl"),
    ("parkinsons", "models/parkinsons_model.pkl")
  ]

  predicate DistinctKeys(entries: seq<(string, string)>) {
    forall i, j :: 0 <= i < j < |entries| ==> entries[i].0 != entries[j].0
  }

  /** The path stored under `key`, if any. */
  function PathFor(entries: seq<(string, string)>, key: string): (r: Option<string>)
    ensures r.Some? <==> exists i :: 0 <= i < |entries| && entries[i].0 == key
  {
    if entries == [] then None
    else if entries[|entries| - 1].0 == key then Some(entries[|entries| - 1].1)
    else PathFor(entries[..|entries| - 1], key)
  }

  function UpperAscii(ch: char): char {
    if 'a' <= ch <= 'z' then (ch as int - 32) as char else ch
  }

  function LowerAscii(ch: char): char {
    if 'A' <= ch <= 'Z' then (ch as int + 32) as char else ch
  }

  function LowerAll(s: string): (r: string)
    ensures |r| == |s| && forall i :: 0 <= i < |s| ==> r[i] == LowerAscii(s[i])
  {
    if s == [] then [] else [LowerAscii(s[0])] + LowerAll(s[1..])
  }

  /** Python's `str.capitalize` on ASCII text: first letter upper case, the rest lower case. */
  function Capitalize(s: string): (r: string)
    ensures |r| == |s|
    ensures |s| > 0 ==> r[0] == UpperAscii(s[0])
    ensures forall i :: 0 < i < |s| ==> r[i] == LowerAscii(s[i])
  {
    if s == [] then [] else [UpperAscii(s[0])] + LowerAll(s[1..])
  }

  /** The sidebar message for one load attempt (a.py:233, 235, 237). */
  function LoadNotice(key: string, path: string, outcome: LoadOutcome): (n: Notice)
    ensures n.level == SuccessNotice <==> outcome.Loaded?
    ensures outcome.Loaded? ==> n.text == "✅ " + Capitalize(key) + " model loaded successfully"
    ensures outcome.FileNotFound? ==> n.text == "❌ " + Capitalize(key) + " model not found at " + path
    ensures outcome.LoadFailed? ==> n.text == "❌ Error loading " + key + " model: " + outcome.message
  {
    match outcome
    case Loaded(_) => Notice(SuccessNotice, "✅ " + Capitalize(key) + " model loaded successfully")
    case FileNotFound => Notice(ErrorNotice, "❌ " + Capitalize(key) + " model not found at " + path)
    case LoadFailed(message) => Notice(ErrorNotice, "❌ Error loading " + key + " model: " + message)
  }

  /** The registry after attempting `entries` in order: a success adds its key, a failure adds nothing. */
  function LoadPass(entries: seq<(string, string)>, load: string -> LoadOutcome): (r: map<string, Classifier>)
    ensures forall key :: key in r ==>
              exists i :: 0 <= i < |entries| && entries[i].0 == key && load(entries[i].1) == Loaded(r[key])
  {
    if entries == [] then map[]
    else
      var registry := LoadPass(entries[..|entries| - 1], load);
      var (key, path) := entries[|entries| - 1];
      match load(path)
      case Loaded(c) => registry[key := c]
      case _ => registry
  }

  /** One more attempt extends the registry only when it succeeds. */
  lemma LoadPassSnoc(entries: seq<(string, string)>, entry: (string, string), load: string -> LoadOutcome)
    ensures LoadPass(entries + [entry], load) ==
              if load(entry.1).Loaded? then LoadPass(entries, load)[entry.0 := load(entry.1).classifier]
              else LoadPass(entries, load)
  {
    assert (entries + [entry])[..|entries|] == entries;
  }

  /** `LoadPassSnoc` at position i of a fixed entry list: the form the loop of `LoadEach` steps by. */
  lemma LoadPassStep(entries: seq<(string, string)>, i: nat, load: string -> LoadOutcome)
    requires i < |entries|
    ensures LoadPass(entries[..i + 1], load) ==
              if load(entries[i].1).Loaded? then LoadPass(entries[..i], load)[entries[i].0 := load(entries[i].1).classifier]
              else LoadPass(entries[..i], load)
  {
    assert entries[..i + 1] == entries[..i] + [entries[i]];
    LoadPassSnoc(entries[..i], entries[i], load);
  }

  lemma {:induction false} PathForAbsent(entries: seq<(string, string)>, key: string)
    requires forall i :: 0 <= i < |entries| ==> entries[i].0 != key
    ensures PathFor(entries, key) == None
  {
  }

  /**
   * Failure isolation: a key ends up in the registry exactly when the load of
   * its own path succeeded, holding that classifier, whatever the other loads did.
   */
  lemma {:induction false} LoadPassContents(entries: seq<(string, string)>, load: string -> LoadOutcome, key: string)
    requires DistinctKeys(entries)
    ensures key in LoadPass(entries, load) <==> PathFor(entries, key).Some? && load(PathFor(entries, key).value).Loaded?
    ensures key in LoadPass(entries, load) ==> LoadPass(entries, load)[key] == load(PathFor(entries, key).value).classifier
  {
    if entries != [] {
      var prefix := entries[..|entries| - 1];
      assert DistinctKeys(prefix);
      LoadPassContents(prefix, load, key);
      if entries[|entries| - 1].0 == key {
        forall i | 0 <= i < |prefix| ensures prefix[i].0 != key {
          assert entries[i].0 != entries[|entries| - 1].0;
        }
        PathForAbsent(prefix, key);
      }
    }
  }

  /** A load that behaves the same on one key's path gives that key the same registry slot. */
  lemma LoadIsolation(load1: string -> LoadOutcome, load2: string -> LoadOutcome, key: string)
    requires PathFor(MODEL_PATHS, key).Some?
    requires load1(PathFor(MODEL_PATHS, key).value) == load2(PathFor(MODEL_PATHS, key).value)
    ensures key in LoadPass(MODEL_PATHS, load1) <==> key in LoadPass(MODEL_PATHS, load2)
    ensures key in LoadPass(MODEL_PATHS, load1) ==> LoadPass(MODEL_PATHS, load1)[key] == LoadPass(MODEL_PATHS, load2)[key]
  {
    ModelPathsDistinct();
    LoadPassContents(MODEL_PATHS, load1, key);
    LoadPassContents(MODEL_PATHS, load2, key);
  }

  /** One missing or broken model file leaves the registry with exactly the other keys. */
  lemma OneModelMissing(load: string -> LoadOutcome, missing: string)
    requires PathFor(MODEL_PATHS, missing).Some?
    requires !load(PathFor(MODEL_PATHS, missing).value).Loaded?
    requires forall i :: 0 <= i < |MODEL_PATHS| && MODEL_PATHS[i].0 != missing ==> load(MODEL_PATHS[i].1).Loaded?
    ensures forall key :: key in LoadPass(MODEL_PATHS, load) <==> PathFor(MODEL_PATHS, key).Some? && key != missing
  {
    ModelPathsDistinct();
    forall key
      ensures key in LoadPass(MODEL_PATHS, load) <==> PathFor(MODEL_PATHS, key).Some? && key != missing
    {
      LoadPassContents(MODEL_PATHS, load, key);
      if PathFor(MODEL_PATHS, key).Some? && key != missing {
        var i :| 0 <= i < |MODEL_PATHS| && MODEL_PATHS[i].0 == key;
        PathForAt(MODEL_PATHS, i);
      }
    }
  }

  /** With distinct keys, the path found for entry i's key is entry i's path. */
  lemma {:induction false} PathForAt(entries: seq<(string, string)>, i: nat)
    requires DistinctKeys(entries) && i < |entries|
    ensures PathFor(entries, entries[i].0) == Some(entries[i].1)
  {
    if i < |entries| - 1 {
      assert entries[..|entries| - 1][i] == entries[i];
      PathForAt(entries[..|entries| - 1], i);
    }
  }

  lemma ModelPathsDistinct()
    ensures DistinctKeys(MODEL_PATHS)
  {
  }

  /**
   * The loop of `load_models` over any list of `(key, path)` entries: one
   * attempt per entry, in order; every attempt emits exactly one notice and
   * no failure stops the loop.
   */
  method LoadEach(entries: seq<(string, string)>, load: string -> LoadOutcome)
    returns (models: map<string, Classifier>, notices: seq<Notice>)
    ensures models == LoadPass(entries, load)
    ensures |notices| == |entries|
    ensures forall i :: 0 <= i < |entries| ==> notices[i] == LoadNotice(entries[i].0, entries[i].1, load(entries[i].1))
  {
    models, notices := map[], [];
    var i := 0;
    while i < |entries|
      invariant 0 <= i <= |entries|
      invariant models == LoadPass(entries[..i], load)
      invariant |notices| == i
      invariant forall j :: 0 <= j < i ==> notices[j] == LoadNotice(entries[j].0, entries[j].1, load(entries[j].1))
    {
      var (key, path) := entries[i];
      var outcome := load(path);
      LoadPassStep(entries, i, load);
      if outcome.Loaded? {
        models := models[key := outcome.classifier];
      }
      notices := notices + [LoadNotice(key, path, outcome)];
      i := i + 1;
    }
    assert entries[..i] == entries;
  }

  /**
   * `load_models`: the loop run over `model_paths`.  A key is in the result
   * exactly when its own file loaded, and there is one notice per entry.
   */
  method LoadModels(load: string -> LoadOutcome) returns (models: map<string, Classifier>, notices: seq<Notice>)
    ensures models == LoadPass(MODEL_PATHS, load)
    ensures forall key :: key in models <==> PathFor(MODEL_PATHS, key).Some? && load(PathFor(MODEL_PATHS, key).value).Loaded?
    ensures forall key :: key in models ==> models[key] == load(PathFor(MODEL_PATHS, key).value).classifier
    ensures |notices| == |MODEL_PATHS|
    ensures forall i :: 0 <= i < |MODEL_PATHS| ==>
              notices[i] == LoadNotice(MODEL_PATHS[i].0, MODEL_PATHS[i].1, load(MODEL_PATHS[i].1))
  {
    models, notices := LoadEach(MODEL_PATHS, load);
    ModelPathsDistinct();
    forall key
      ensures key in models <==> PathFor(MODEL_PATHS, key).Some? && load(PathFor(MODEL_PATHS, key).value).Loaded?
      ensures key in models ==> models[key] == load(PathFor(MODEL_PATHS, key).value).classifier
    {
      LoadPassContents(MODEL_PATHS, load, key);
    }
  }
}
