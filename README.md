# Disease-risk prediction: dispatch layer

A Streamlit app (`a.py`) asks the user for health metrics and feeds them to one of
five pre-trained binary classifiers (diabetes, heart, liver, kidney, Parkinson's).
It then shows a high- or low-risk verdict with a probability. This project models the
logic under the user interface:

- **Registry** (`registry.dfy`): the one-time load pass of `load_models`. It tries the
  five `model_paths` entries in order. Each attempt either adds `models[key]` or adds
  nothing, and each emits one sidebar notice. Opening and unpickling a file is a
  parameter `load: path -> LoadOutcome`, where the outcome is `Loaded(classifier)`,
  `FileNotFound` or `LoadFailed(message)`.
- **Schema** (`schema.dfy`): the five `predict_*` parameter lists, as the `Form`
  datatype. The one-row vector each builder makes has 8, 13, 10, 11 and 21 features.
  Position i of the vector holds the i-th declared parameter.
- **Prediction** (`prediction.dfy`): how the classifier is called. The classifier is
  two uninterpreted functions, `predict` and `predict_proba`, over a batch of rows.
  This module also holds the `prediction == 1` branch of `display_results` and the
  `not in models` guard each prediction page runs.
- **Encodings** (`encodings.dfy`): the selectbox label-to-code tables. Their codes are
  distinct and fill the range 0..n-1.
- **Navigation** (`navigation.dfy`): `st.session_state.page` as a `Session` class.
  One interaction is modelled by `Run`: the sidebar loop, the default page, the
  eight-way dispatch, and the home page's quick-navigation buttons. The `st.rerun()`
  after a button is included in `Run`.

Points where the model follows the code closely:
- The Parkinson's builder takes 21 features (a.py:293-299).
- The app itself checks no input: every feature arrives from a widget as a positional
  argument, so the code has no missing-field or out-of-range error path. What the
  classifier does with a row it cannot handle is listed under "Left out".
- Registry keys are the dictionary's strings. The closed `Condition` type is used only
  for the per-condition code.

## Model

| member | source | states |
|---|---|---|
| Registry.LoadEach | a.py:229-238 | the loop over any entry list: the registry is the load pass of the entries, and notice i is the notice for entry i's own outcome |
| Registry.LoadPass | a.py:229-238 | the registry the loop builds: every key in it belongs to an entry whose own load succeeded, and it holds that load's classifier |
| Registry.LoadPassSnoc | a.py:229-232 | the loop's step lemma: the pass over entries plus one more is the pass over the entries, extended by the new key on success and unchanged on failure (this unfolds `LoadPass` at the end of the slice, which is what the loop invariant needs) |
| Registry.LoadModels | a.py:216-239 | the loop attempts every `model_paths` entry in order; a key is in `models` exactly when its own load succeeded, and it holds that load's classifier; there is exactly one notice per entry, in order |
| Registry.LoadPassContents | a.py:229-238 | failure isolation: after a pass over entries with distinct keys, a key is present iff the load of its own path succeeded, and its value is that classifier, whatever the other loads did |
| Registry.LoadIsolation | a.py:229-238 | two load behaviours that agree on one key's path give that key the same registry slot |
| Registry.OneModelMissing | a.py:229-238 | if one file is missing or broken and the others load, the registry holds exactly the other four keys |
| Registry.PathForAt | a.py:221-227 | with distinct keys, looking up entry i's key yields entry i's path |
| Registry.ModelPathsDistinct | a.py:221-227 | the five `model_paths` keys are distinct |
| Registry.LoadNotice | a.py:233-237 | the notice is a success iff the load succeeded; the text is the capitalised-key success message, the capitalised-key "not found at path" message, or the raw-key message with `str(e)` |
| Registry.Capitalize | a.py:233 | `str.capitalize` on ASCII: same length, first letter upper case, the rest lower case |
| Schema.ConditionOfKey | a.py:221-227 | the five registry keys name the five conditions one-to-one; any other key names none |
| Schema.FieldNames | a.py:293-332 | the feature parameters each `predict_*` function declares, in order, model excluded: as many as that builder's row has entries |
| Schema.FieldValueDeclared | a.py:293-332 | `FieldValue` (the argument bound to a parameter name) yields a value exactly when the builder declares a parameter of that name |
| Schema.FeatureVector | a.py:296-334 | each builder's row has length 8, 13, 10, 11 or 21 |
| Schema.SchemaWellFormed | a.py:293-332 | no builder declares a feature parameter name twice |
| Schema.VectorFollowsSchema | a.py:293-334 | entry i of the row is the argument of the i-th declared feature parameter |
| Schema.FieldAt | a.py:293-334 | the same position-to-parameter fact for one index i |
| Schema.SchemaRowUnique | a.py:296-334 | every row laid out by the schema is the builder's row (no other order fits) |
| Schema.FromVector | a.py:296-334 | reading a row of the right length back into parameters and rebuilding gives the same row |
| Schema.FormRoundTrip | a.py:296-334 | rebuilding the parameters from the row gives back the original arguments |
| Prediction.Predict | a.py:293-338 | for any row laid out by the schema, the result's prediction is `predict([row])[0]` and its probability is `predict_proba([row])[0][1]`: the same row goes to both calls |
| Prediction.Interpret | a.py:339-386 | the verdict is high risk iff the prediction equals 1 (any other value is low risk); the probability is passed through |
| Prediction.LevelIgnoresProbability | a.py:341 | the probability never changes the risk level |
| Prediction.PredictionPage | a.py:560-591 | a page ends in "model not loaded" iff its key is absent, and reaches a verdict iff the model is present and the button was pressed; that verdict interprets the prediction of the registry's own classifier (the same guard is at a.py:610-612, 674-676, 730-732 and 791-793) |
| Prediction.MissingModelIgnoresInputs | a.py:561-563 | with the model absent the page ends the same way whatever the inputs and button: nothing is read or predicted |
| Prediction.ModelPathsAreConditions | a.py:221-227 | every condition's key has a model path, and every model path belongs to a condition |
| Prediction.RegistryHoldsOnlyConditions | a.py:218-239 | every key the load pass can produce is one of the five condition keys |
| Prediction.PageAvailableIffModelLoaded | a.py:216-239 | end to end: after the load pass, a submitted page for a condition reaches a verdict iff that condition's own file loaded |
| Prediction.DiseaseInfoCoversRegistry | a.py:242-290 | `disease_info` has an entry for exactly the `model_paths` keys |
| Prediction.DiabetesStubScenario | a.py:306-312 | the diabetes defaults, against a classifier that always answers 0 and 0.10, give a low-risk verdict reporting 0.10 |
| Encodings.Choose | a.py:622-625 | the code kept for a chosen option lies in 0..n-1 and differs from every other option's code |
| Encodings.LookupRoundTrip | a.py:621-643 | in a table with distinct labels and codes, a label's code decodes back to that label |
| Encodings.CodesCoverRange | a.py:803-816 | in a code table every code 0..n-1 belongs to some option (the codes are contiguous from 0) |
| Encodings.LabelOfFindsCodes | a.py:803-816 | a code decodes to a label iff the table uses that code |
| Encodings.CodesSize | a.py:803-816 | a table with distinct codes uses as many codes as it has options |
| Encodings.Range | a.py:803-816 | helper of `CodesCoverRange`: the integer set 0..n-1 that the codes of a table fill, with exactly n members |
| Encodings.SelectboxTablesAreCodeTables | a.py:621-816 | every selectbox table of the heart, liver and kidney forms has distinct labels and distinct codes within 0..n-1 |
| Encodings.BinaryTablesAreCodeTables | a.py:814-816 | the Male/Female (a.py:621, 685), No/Yes (a.py:628, 635), Normal/Abnormal and Not Present/Present tables are code tables |
| Encodings.ChestPainIsCodeTable | a.py:622-625 | the chest pain types encode to 0..3, one code each |
| Encodings.RestingEcgIsCodeTable | a.py:629-631 | the resting ECG results encode to 0..2, one code each |
| Encodings.SlopeIsCodeTable | a.py:637-639 | the ST slope options encode to 0..2, one code each |
| Encodings.ThalIsCodeTable | a.py:641-643 | the thalassemia options encode to 0..2, one code each |
| Encodings.SpecificGravityIsCodeTable | a.py:803-805 | specific gravity '1.005'..'1.025' encodes to 0..4, one code each |
| Encodings.GradeIsCodeTable | a.py:806-811 | the albumin and sugar grades '0'..'5' encode to 0..5, one code each |
| Encodings.SampleEncodings | a.py:803-805 | Male encodes to 1, Female to 0, specific gravity '1.005' to 0 and '1.025' to 4, and the default option is '1.015' with code 2 |
| Navigation.Session.constructor | a.py:981-982 | a new session starts with `page` unset |
| Navigation.Session.SidebarLoop | a.py:974-978 | the sidebar loop moves `page` to the id of the first entry whose button was pressed, and reports that it did; without such a press `page` is unchanged |
| Navigation.Session.Run | a.py:974-1000 | one interaction leaves `page` at `NextPage(old page, click)` and renders `Dispatch` of it; the page id stays one of the eight |
| Navigation.Dispatch | a.py:985-1000 | the `if`/`elif` chain: whenever an id reaches a page function, `PageOf` of that page gives the id back, so no two ids reach the same page |
| Navigation.FirstLabelled | a.py:974-977 | the sidebar scan: no entry is found iff no entry carries the pressed label; a found id belongs to an entry with that label, and no earlier entry carries it |
| Navigation.HomeTarget | a.py:470-494 | a quick-navigation button of the home page, by its widget key, selects the page of one of the five conditions; that each of the five keys is recognised is `HomeTargetRecognises` |
| Navigation.HomeTargetRecognises | a.py:472-493 | each of the five widget keys `home_<key>_btn` is recognised and selects its condition's page |
| Navigation.HomeButtonSelects | a.py:470-494 | on the home page (or with `page` unset), each condition's button `home_<key>_btn` moves the page to that condition's key, as the `st.session_state.page = ...; st.rerun()` of each button does |
| Navigation.HomeButtonKeysNameTheirPage | a.py:472-493 | each quick-navigation button's widget key is `home_<page>_btn` for the page it selects |
| Navigation.NextPage | a.py:974-982 | the page after one interaction (the sidebar loop, the default, and a home button with a.py:470-494): it differs from the current page (unset meaning 'home') only after a click, and then it is one of the eight page ids; a sidebar button selects its entry (`SidebarSelects`), and a home button pressed on the home page selects its condition (`HomeButtonSelects`) |
| Navigation.ConditionKeysArePageIds | a.py:964-969 | every condition's registry key is the id of a `pages` entry |
| Navigation.NextPageIsPageId | a.py:974-982 | from an unset or known page, an interaction always leads to one of the eight page ids |
| Navigation.DispatchCoversExactlyThePages | a.py:985-1000 | an id reaches a page function iff it is one of the eight `pages` ids; any other id renders nothing |
| Navigation.DispatchIsOneToOne | a.py:985-1000 | each of the eight ids reaches exactly one page function, and each page function is reached by exactly one id |
| Navigation.FirstLabelledAt | a.py:974-978 | the sidebar loop reacts to the first entry carrying the pressed label |
| Navigation.SidebarSelects | a.py:974-978 | pressing the sidebar button of any entry sets `page` to that entry's id, from any page |
| Navigation.NoClickKeepsPage | a.py:981-982 | without a click the page is kept, and an unset page becomes 'home' |
| Navigation.HomeButtonOnlyOnHome | a.py:470-494 | a home quick-navigation button changes nothing unless the home page is the one shown |
| Navigation.PredictionPagesUseConditionKeys | a.py:987-996 | the page id of each prediction page is its condition's registry key |

## Left out

- Rendering: CSS, markdown/HTML, columns, expanders, spinners and result styling. These
  are UI only.
- `st.cache_resource` on `load_models`. The model assumes the registry is built once
  and passed unchanged to every page.
- `open`/`pickle.load` and scikit-learn. They appear only as the `load` parameter and
  as the two uninterpreted functions of `Classifier`. A `BaseException` subclass outside
  `Exception` (such as `KeyboardInterrupt`) propagates out of `load_models` and is not
  modelled.
- Prediction.Predict: requires that the classifier returns at least one label and one
  probability row with at least two entries for a one-row batch. A scikit-learn
  classifier fitted on at least two classes does; one fitted on a single class returns
  one-entry probability rows, and the `IndexError` that `[0][1]` then raises is not
  modelled.
- Prediction.Predict: `predict` and `predict_proba` are total functions here. A
  scikit-learn `ValueError` for a row whose feature count does not match the fitted
  model escapes the page uncaught (a.py:588-591); the model cannot express that failure.
- Prediction.Interpret: class labels are `int`. The source compares whatever label
  numpy returns with `== 1` (a.py:341); a classifier fitted on non-numeric labels (such
  as strings) always takes the low-risk branch at a.py:384, a case the `int` label type
  cannot express.
- Floating point: features and probabilities are `real`. The `{probability:.1%}`
  formatting is not modelled. The [0, 1] range of probabilities is not assumed,
  because the code never checks it.
- Widget bounds on `number_input`: the widget library enforces them, and the code has
  no reject or clamp path. The form is the widget values as given.
- `time.sleep` delays, `home_page` cards, `about_page`, `user_profile_page` (its save
  button stores nothing) and the static `disease_info` prose. Only the `disease_info`
  names and keys are kept.
- The first `main` (a.py:495-543). The later definition at a.py:954 replaces it.
- Navigation.Session.Run: Streamlit allows at most one click per interaction, so a
  click is one value. A sidebar label that matches no button leaves the page unchanged,
  although the UI can never produce one.
