# Survey encoder of the chronic-disease risk front ends

This project models the deterministic part of a small risk-prediction app. The app has two front ends, a Streamlit page (`app.py`) and a Tkinter window (`interface.py`). Both collect a 14-question survey. The record is turned into a fixed-order numeric feature vector by `preprocess_input`, using a LabelEncoder-generated table `MAPPINGS` from each categorical answer to an integer code. The vector is handed to a pickled decision tree, and its 0/1 answer becomes one of two messages.

Modules:

- `Wrappers`: `Option` and `Result`.
- `PyDict`: a Python dict literal with distinct keys, as every dict here has, as its list of (key, value) pairs in insertion order. `Keys` is `list(d.keys())` and `Get` is `d[k]`, where `None` stands for the KeyError.
- `LabelEncoding`: Python's `str` ordering (`Less`) and the shape LabelEncoder gives a table, namely labels sorted and coded 0..n-1 by position.
- `Survey`: the parts both front ends share:
  - the questions (`NumField`, `CatField`) and the `Record`;
  - the vector layout `Layout`;
  - the specification `Encode(table, record)`, a left fold over `Layout` that stops at the first KeyError;
  - `PreprocessInput(mappings, data)`, the imperative 14-append method proved to compute `Encode`.
- `WebApp`: `app.py`. It holds:
  - its MAPPINGS and its `preprocess_input`;
  - the form's numeric bounds and select-box options;
  - the prediction banner branch;
  - three worked records.
- `Desktop`: `interface.py`. It holds:
  - its own MAPPINGS copy, proved equal to the web one;
  - its `preprocess_input`;
  - the missing-value loop;
  - the result message;
  - the `fields` list and the read-only comboboxes with their preselected first label.

The classifier (`model.predict(...)[0]`) is a parameter `classify: seq<real> -> Option<int>`. `None` means the call raised.

## Model

| member | source | states |
|---|---|---|
| PyDict.GetSpec | app.py:68-69 | `d[k]` raises KeyError exactly when `k` is not among `d.keys()`; otherwise it yields a value stored beside `k` |
| PyDict.GetAt | app.py:24-58 | in a dict with distinct keys, looking up the i-th key yields the i-th value |
| LabelEncoding.LessIrreflexive | interface.py:10 | Python's `str` `<` is irreflexive |
| LabelEncoding.LessAsymmetric | interface.py:10 | Python's `str` `<` is asymmetric |
| LabelEncoding.LessTransitive | interface.py:10 | Python's `str` `<` is transitive |
| LabelEncoding.CodedFromSorted | interface.py:10-45 | a table whose neighbouring labels are in order and whose codes count up from n is sorted throughout and codes entry i as n + i |
| LabelEncoding.CodedFromZero | interface.py:10-45 | such a table counting from 0 is LabelEncoder-shaped |
| LabelEncoding.EncodedDistinct | interface.py:10-45 | a LabelEncoder-shaped table has no repeated label |
| LabelEncoding.CodeOf | app.py:24-58 | in a LabelEncoder-shaped table the code of the i-th label is i, and any code found lies in [0, n-1] and belongs to the label looked up |
| LabelEncoding.CodesInjective | app.py:24-58 | two known labels of one question get the same code exactly when they are the same label |
| LabelEncoding.CodeIsRank | interface.py:10-45 | the code of a label equals the number of labels that sort before it |
| Survey.LayoutColumns | interface.py:49-52 | the vector has 14 columns in the documented order: Age, Marital Status, Education Level, Number of Children, Smoking, Activity, Employment, Income, Alcohol, Diet, Sleep, Mental Illness, Substance Abuse, Family History |
| Survey.Position | app.py:62-88 | every question has a column of the layout that holds it |
| Survey.LayoutIsBijection | app.py:62-88 | each column holds exactly one question and each question is in exactly one column |
| Survey.ItemsFollowLayout | interface.py:87-102 | `user_data` lists the 14 keys in vector order, each with the record's value for it |
| Survey.CodeSpec | app.py:68 | `MAPPINGS[c][answer]` succeeds exactly when `c` is a table key and `answer` a label of it; otherwise it fails with the KeyError naming the missing key |
| Survey.EncodeFromSucceedsIff | app.py:62-88 | the appends from column k on all succeed exactly when every lookup from column k on succeeds |
| Survey.EncodeFromValues | app.py:62-88 | a successful run from column k appends one entry per remaining column, after the vector built so far, each the encoding of its column |
| Survey.EncodeFromEntries | app.py:62-88 | a successful run from an empty vector yields one entry per column, entry i encoding column i |
| Survey.EncodeFromFirstError | app.py:68-88 | a failed run fails with the error of the first failing column; every column before it succeeds |
| Survey.NumericStep | app.py:65 | the defining step of the fold at a numeric column: the answer is appended as it is and the fold goes on at the next column |
| Survey.CategoricalStep | app.py:68-69 | the defining step of the fold at a categorical column: it fails with that lookup's KeyError, or goes on at the next column with the looked-up code appended |
| Survey.LayoutEntries | app.py:60-90 | a successful encoding has 14 entries, and the entry at a question's column is the encoding of that question |
| Survey.FieldEntries | app.py:65-88 | such a vector has Age, Number of Children and Income unchanged at 0, 3 and 7, and each categorical column holds `MAPPINGS[c][answer]` |
| Survey.EncodedVector | app.py:60-90 | a successful encoding has 14 entries: Age, Number of Children and Income pass through at positions 0, 3 and 7, and each categorical column holds the code of its answer |
| Survey.EncodeSucceedsIff | app.py:68-88 | with a table for every question, encoding succeeds exactly when every categorical answer is a label of its question |
| Survey.FirstFailingColumn | app.py:68-88 | the first failing column is categorical; its error is UnknownCategory with that question and answer; every earlier categorical answer is known |
| Survey.EncodeFailure | app.py:68-88 | a failed encoding reports UnknownCategory for the first unknown answer in vector order, and no vector is produced |
| Survey.FoldDone | app.py:90 | the defining end case of the fold: past the last column the vector built so far is the result |
| Survey.EncodedCodesInRange | app.py:24-88 | with a LabelEncoder-shaped table, every categorical entry lies in [0, cardinality - 1] |
| Survey.AppendCode | app.py:68-69 | one categorical append (`vector.append(MAPPINGS[c][data[c]])`) keeps "vector followed by the remaining columns is the whole encoding", or stops with exactly the encoding's KeyError |
| Survey.PreprocessInput | app.py:60-90 | the 14 in-place appends (the same code as interface.py:47-82), with the first KeyError ending the call, return exactly `Encode(mappings, data)` |
| WebApp.MappingsEntries | app.py:24-58 | MAPPINGS has exactly the eleven categorical questions, each with its inner dict as written |
| WebApp.MappingsValid | app.py:24-58 | every inner dict lists its labels in sorted order with codes 0..n-1; the cardinalities are 4, 5, 3, 3, 2, 3, 3, 3, 2, 2, 2 |
| WebApp.PreprocessInput | app.py:60-90 | the web `preprocess_input` computes `Encode` on the web MAPPINGS |
| WebApp.FormRecordEncodes | app.py:225-240 | a record the form can submit never raises KeyError. Age, Children and Income keep the form's bounds ([0,120], [0,20], at least 0) at positions 0, 3 and 7. Each categorical entry is below its cardinality |
| WebApp.PredictionAlert | app.py:266-269 | a prediction of exactly 1 selects the `st.error` High Risk banner; every other value selects the `st.success` Low Risk banner |
| WebApp.OnSubmit | app.py:262-272 | a submission shows the exception (KeyError of the encoder, or a classifier failure) instead of a prediction; otherwise it shows the banner for the classifier's answer on the encoded vector |
| WebApp.MarriedExampleCodes | app.py:24-58 | the codes of the example answers: "Married" is 1, and the first label of every other question is 0 |
| WebApp.MarriedExampleHead | app.py:65-77 | the example record's first seven columns are 30, 1, 0, 0, 0, 0, 0 |
| WebApp.MarriedExample | app.py:60-90 | the form defaults with "Married" encode to [30, 1, 0, 0, 0, 0, 0, 50000, 0, 0, 0, 0, 0, 0] |
| WebApp.DesignScenarioCodes | app.py:24-58 | the codes of the scenario answers: Married 1, Bachelor's Degree 1, Non-smoker 2, Low 1, Good 1, the rest 0 |
| WebApp.DesignScenarioHead | app.py:65-77 | the scenario record's first seven columns are 30, 1, 1, 0, 2, 0, 0 |
| WebApp.DesignScenario | app.py:60-90 | 30, Married, Bachelor's Degree, 0 children, Non-smoker, Active, Employed, 50000, Low, Healthy, Good, No, No, No encodes to [30, 1, 1, 0, 2, 0, 0, 50000, 1, 0, 1, 0, 0, 0] |
| WebApp.UnknownAnswerExample | app.py:68 | Marital Status "Engaged" fails with UnknownCategory(Marital Status, "Engaged") |
| Desktop.SameAsWeb | interface.py:11-45 | the desktop MAPPINGS equals the web MAPPINGS |
| Desktop.MappingsValid | interface.py:10-45 | the desktop table is LabelEncoder-shaped |
| Desktop.CodesAreRanks | interface.py:10-45 | each code is the rank of its label among the question's labels in sorted order |
| Desktop.PreprocessInput | interface.py:47-82 | the desktop `preprocess_input` computes `Encode` on the desktop MAPPINGS |
| Desktop.EncodersAgree | interface.py:11-82 | both copies of `preprocess_input` give the same result, vector or error, on every record |
| Desktop.FirstMissingSpec | interface.py:105-107 | nothing is found exactly when no value is `""` or None; what is found is the key of a missing value with none missing before it |
| Desktop.ValidateUserData | interface.py:105-107 | the loop raises "Missing value for key" at the first missing value in insertion order, and falls through exactly when none is missing |
| Desktop.MissingValue | interface.py:106 | a `user_data` value is missing exactly when it is an empty categorical answer; the numbers, even 0, never are |
| Desktop.MissingIsEmptyAnswer | interface.py:87-107 | validation passes exactly when no categorical answer is empty; otherwise it names the first question, in vector order, whose answer is empty |
| Desktop.ResultMessage | interface.py:112 | a prediction of exactly 1 gives "Yes, this person has a serious chronic disease."; every other value gives "No, this person is healthy." |
| Desktop.PredictChronicDisease | interface.py:104-115 | a missing value is reported before encoding is tried. A KeyError or a classifier failure is reported with `showerror`. Otherwise `showinfo` shows the message for the classifier's answer on the encoded vector |
| Desktop.FieldsMatchLayout | interface.py:142-157 | `fields` lists the questions in vector order, and an entry is categorical exactly when its column is |
| Desktop.DefaultAnswer | interface.py:167-171 | the preselected label of each combobox is a label of its question and encodes to 0 |
| Desktop.LabelsNonEmpty | interface.py:11-45 | no label of MAPPINGS is the empty string |
| Desktop.EmptyAnswerFails | interface.py:47-82 | an empty categorical answer makes encoding itself fail, on the desktop table and on the web table alike |
| Desktop.ComboboxRecordEncodes | interface.py:161-176 | a record read from the read-only comboboxes passes validation and encodes, each categorical entry below its cardinality |
| Desktop.DefaultsEncodeToZero | interface.py:167-171 | with every combobox left at its preselected label, every categorical entry is 0 |

## Left out

- Loading the pickled decision tree and `model.predict` (app.py:13-21, app.py:264, interface.py:8, interface.py:110) are foreign calls. The classifier is a parameter, and its failure is the single error `InferenceError`.
- Streamlit and Tkinter widget construction, the CSS, the scroll canvas, the background image with base64 encoding, and `random.choice` are presentation, file I/O and randomness. Only the values the widgets can produce are modelled: the form's bounds and select-box options, and the comboboxes' labels and their preselection.
- `int()` and `float()` parsing of the desktop entries (interface.py:88-95) is Python built-in behaviour with an unstated format. Records hold parsed numbers, so the ValueError a bad number raises before validation is not modelled.
- Income is a `real`. Machine floating point is not modelled, and the value is only passed through.
- `np.array(vector).reshape(1, -1)` is modelled as the plain sequence of reals. The one-row matrix shape is not kept.
- The texts of exceptions are not modelled. The error shown by `st.error(f"An error occurred during prediction: {e}")` and by `showerror("Error", f"Invalid Input: {e}")` is kept as the `Error` value, not its string.
- The shared `Survey.PreprocessInput` takes the front end's MAPPINGS as a parameter, where the source reads a module global. Each front end's wrapper passes its own table. `UnknownField` (a KeyError from `MAPPINGS[c]` itself) cannot happen with either real table, because both cover every question.
- Checking for an absent key in `data` is not modelled. Both front ends build `user_data` with all 14 keys, so `Record` has every field.
- The encoder has no missing-value check of its own. The web front end has no validation loop, so an empty answer there makes encoding fail with a KeyError (`Desktop.EmptyAnswerFails`, stated for both tables). Only the desktop loop reports `MissingField`.
