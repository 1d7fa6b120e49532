/**
 * The desktop front end: its own copy of MAPPINGS and of `preprocess_input`,
 * the missing-value check and the result message of
 * `predict_chronic_disease`, and the `fields` list from which the window
 * builds one entry or read-only combobox per question.
 */
module Desktop {
  import opened Wrappers
  import opened PyDict
  import opened LabelEncoding
  import opened Survey
  import WebApp

  /** MAPPINGS, written out again in this front end. */
  const Mappings: Table := map[
    MaritalStatus := [("Divorced", 0), ("Married", 1), ("Single", 2), ("Widowed", 3)],
    EducationLevel :=
      [("Associate Degree", 0), ("Bachelor's Degree", 1), ("High School", 2), ("Master's Degree", 3), ("PhD", 4)],
    SmokingStatus := [("Current", 0), ("Former", 1), ("Non-smoker", 2)],
    PhysicalActivityLevel := [("Active", 0), ("Moderate", 1), ("Sedentary", 2)],
    EmploymentStatus := [("Employed", 0), ("Unemployed", 1)],
    AlcoholConsumption := [("High", 0), ("Low", 1), ("Moderate", 2)],
    DietaryHabits := [("Healthy", 0), ("Moderate", 1), ("Unhealthy", 2)],
    SleepPatterns := [("Fair", 0), ("Good", 1), ("Poor", 2)],
    MentalIllnessHistory := [("No", 0), ("Yes", 1)],
    SubstanceAbuseHistory := [("No", 0), ("Yes", 1)],
    FamilyHistoryDepression := [("No", 0), ("Yes", 1)]
  ]

  /** The desktop table is the web table, question by question and label by label. */
  lemma SameAsWeb()
    ensures Mappings == WebApp.Mappings
  {
    WebApp.MappingsEntries();
  }

  /** So it is LabelEncoder-shaped too. */
  lemma MappingsValid()
    ensures ValidTable(Mappings)
  {
    SameAsWeb();
    WebApp.MappingsValid();
  }

  /**
   * Each code is the rank of the answer among the labels of its question in
   * sorted order: the number of labels that sort before it.
   */
  lemma CodesAreRanks(c: CatField, answer: string)
    requires answer in Keys(Mappings[c])
    ensures Code(Mappings, c, answer).Success?
    ensures forall i :: 0 <= i < |Mappings[c]| ==>
      (Less(Mappings[c][i].0, answer) <==> i < Code(Mappings, c, answer).value)
  {
    MappingsValid();
    CodeSpec(Mappings, c, answer);
    GetSpec(Mappings[c], answer);
    CodeIsRank(Mappings[c], answer);
  }

  /** `preprocess_input` of the desktop front end, on its MAPPINGS. */
  method PreprocessInput(data: Record) returns (out: Result<seq<real>, Error>)
    ensures out == Encode(Mappings, data)
  {
    out := Survey.PreprocessInput(Mappings, data);
  }

  /** The two copies of `preprocess_input` compute the same result on every record. */
  lemma EncodersAgree(r: Record)
    ensures Encode(Mappings, r) == Encode(WebApp.Mappings, r)
  {
    SameAsWeb();
  }

  // ---------------------------------------------------------------------
  // Validation in `predict_chronic_disease`

  /** `value == "" or value is None`: only an empty string or None; the number 0 is not missing. */
  predicate IsMissing(v: Value) {
    v == StrV("") || v == NoneV
  }

  /** The key of the first item, in insertion order, whose value is missing. */
  function FirstMissing(userData: Dict<Field, Value>): Option<Field> {
    if |userData| == 0 then None
    else if IsMissing(userData[0].1) then Some(userData[0].0)
    else FirstMissing(userData[1..])
  }

  /**
   * FirstMissing finds nothing exactly when no value is missing, and what it
   * finds is the key of a missing value with no missing value before it.
   */
  lemma {:induction false} FirstMissingSpec(userData: Dict<Field, Value>)
    ensures FirstMissing(userData).None? <==> forall i :: 0 <= i < |userData| ==> !IsMissing(userData[i].1)
    ensures FirstMissing(userData).Some? ==> exists i ::
      && 0 <= i < |userData|
      && userData[i].0 == FirstMissing(userData).value
      && IsMissing(userData[i].1)
      && forall j :: 0 <= j < i ==> !IsMissing(userData[j].1)
  {
    if |userData| > 0 && !IsMissing(userData[0].1) {
      var rest := userData[1..];
      FirstMissingSpec(rest);
      assert forall i :: 1 <= i < |userData| ==> userData[i] == rest[i - 1];
      if FirstMissing(rest).Some? {
        var i :| 0 <= i < |rest| && rest[i].0 == FirstMissing(rest).value && IsMissing(rest[i].1)
          && forall j :: 0 <= j < i ==> !IsMissing(rest[j].1);
        assert userData[i + 1] == rest[i];
      }
    }
  }

  /**
   * The `for key, value in user_data.items()` loop: raises the ValueError
   * "Missing value for <key>" at the first missing value, otherwise falls
   * through.
   */
  method ValidateUserData(userData: Dict<Field, Value>) returns (missing: Option<Error>)
    ensures missing.None? <==> FirstMissing(userData).None?
    ensures missing.Some? ==> missing.value == MissingField(FirstMissing(userData).value)
  {
    var i := 0;
    while i < |userData|
      invariant 0 <= i <= |userData|
      invariant FirstMissing(userData) == FirstMissing(userData[i..])
    {
      var (key, value) := userData[i];
      assert userData[i..][1..] == userData[i + 1..];
      if value == StrV("") || value == NoneV {
        return Some(MissingField(key));
      }
      i := i + 1;
    }
    return None;
  }

  /**
   * On the `user_data` of a record, a value is missing exactly when it is the
   * answer to a categorical question and that answer is the empty string.
   */
  lemma MissingValue(r: Record, f: Field)
    ensures IsMissing(ValueOf(r, f)) <==> f.Categorical? && Answer(r, f.cat) == ""
  {
  }

  /**
   * So validation of a record's `user_data` passes exactly when no categorical
   * answer is empty, and otherwise names the first question, in vector order,
   * whose answer is empty.
   */
  lemma MissingIsEmptyAnswer(r: Record)
    ensures FirstMissing(Items(r)).None? <==> forall c: CatField :: Answer(r, c) != ""
    ensures FirstMissing(Items(r)).Some? ==>
      var f := FirstMissing(Items(r)).value;
      && f.Categorical? && Answer(r, f.cat) == ""
      && forall d: CatField :: Position(Categorical(d)) < Position(f) ==> Answer(r, d) != ""
  {
    var items := Items(r);
    ItemsFollowLayout(r);
    FirstMissingSpec(items);
    if FirstMissing(items).None? {
      forall c: CatField ensures Answer(r, c) != "" {
        MissingValue(r, Categorical(c));
        assert !IsMissing(items[Position(Categorical(c))].1);
      }
    } else {
      var f := FirstMissing(items).value;
      var i :| 0 <= i < |items| && items[i].0 == f && IsMissing(items[i].1)
        && forall j :: 0 <= j < i ==> !IsMissing(items[j].1);
      LayoutIsBijection();
      assert items[i] == (Layout[i], ValueOf(r, Layout[i])) by {
        assert items[Position(Layout[i])] == (Layout[i], ValueOf(r, Layout[i]));
      }
      MissingValue(r, f);
      forall d: CatField | Position(Categorical(d)) < Position(f) ensures Answer(r, d) != "" {
        MissingValue(r, Categorical(d));
        assert !IsMissing(items[Position(Categorical(d))].1);
      }
    }
  }

  // ---------------------------------------------------------------------
  // The result of `predict_chronic_disease`

  // Built from two pieces so that ResultMessage can tell the texts apart by their first characters.
  const YesText: string := "Yes, this person has " + "a serious chronic disease."
  const NoText: string := "No, this person is healthy."

  /** The conditional expression on the prediction: exactly 1 means the disease message. */
  function ResultMessage(prediction: int): (message: string)
    ensures message == YesText <==> prediction == 1
    ensures message == NoText <==> prediction != 1
  {
    assert YesText[0] != NoText[0];
    if prediction == 1 then YesText else NoText
  }

  /** What the user sees: `showinfo("Prediction Result", ...)` or `showerror("Error", "Invalid Input: ...")`. */
  datatype Outcome =
    | Info(title: string, message: string)
    | ErrorBox(title: string, error: Error)

  /**
   * `predict_chronic_disease` from the point where the entries have been
   * read: validate, encode, classify, report. A missing value is reported
   * before encoding is tried; a KeyError of the encoder or a failure of the
   * classifier is reported as an error. `classify` stands for
   * `model.predict(...)[0]`; None means it raised.
   */
  method PredictChronicDisease(data: Record, classify: seq<real> -> Option<int>) returns (outcome: Outcome)
    ensures FirstMissing(Items(data)).Some? ==>
      outcome == ErrorBox("Error", MissingField(FirstMissing(Items(data)).value))
    ensures FirstMissing(Items(data)).None? && Encode(Mappings, data).Failure? ==>
      outcome == ErrorBox("Error", Encode(Mappings, data).error)
    ensures (FirstMissing(Items(data)).None? && Encode(Mappings, data).Success?
      && classify(Encode(Mappings, data).value).None?) ==>
      outcome == ErrorBox("Error", InferenceError)
    ensures (FirstMissing(Items(data)).None? && Encode(Mappings, data).Success?
      && classify(Encode(Mappings, data).value).Some?) ==>
      outcome == Info("Prediction Result", ResultMessage(classify(Encode(Mappings, data).value).value))
  {
    var userData := Items(data);
    var missing := ValidateUserData(userData);
    if missing.Some? {
      return ErrorBox("Error", missing.value);
    }
    var processed := PreprocessInput(data);
    if processed.Failure? {
      return ErrorBox("Error", processed.error);
    }
    var prediction := classify(processed.value);
    if prediction.None? {
      return ErrorBox("Error", InferenceError);
    }
    var result := ResultMessage(prediction.value);
    outcome := Info("Prediction Result", result);
  }

  // ---------------------------------------------------------------------
  // The input window

  datatype Kind = NumberKind | CategoricalKind

  /** `fields`: the label and kind of each input, in the order the window lays them out. */
  const Fields: seq<(string, Kind)> := [
    ("Age", NumberKind),
    ("Marital Status", CategoricalKind),
    ("Education Level", CategoricalKind),
    ("Number of Children", NumberKind),
    ("Smoking Status", CategoricalKind),
    ("Physical Activity Level", CategoricalKind),
    ("Employment Status", CategoricalKind),
    ("Income", NumberKind),
    ("Alcohol Consumption", CategoricalKind),
    ("Dietary Habits", CategoricalKind),
    ("Sleep Patterns", CategoricalKind),
    ("History of Mental Illness", CategoricalKind),
    ("History of Substance Abuse", CategoricalKind),
    ("Family History of Depression", CategoricalKind)
  ]

  /**
   * The window asks the questions in vector order: entry i has the key of
   * column i, and it is a combobox exactly when column i is categorical.
   */
  lemma FieldsMatchLayout()
    ensures |Fields| == |Layout|
    ensures forall i :: 0 <= i < |Fields| ==>
      Fields[i].0 == Name(Layout[i]) && (Fields[i].1 == CategoricalKind <==> Layout[i].Categorical?)
  {
    LayoutColumns();
    forall i | 0 <= i < |Fields|
      ensures Fields[i].0 == Name(Layout[i]) && (Fields[i].1 == CategoricalKind <==> Layout[i].Categorical?)
    {
      if i < 7 {
        assert i == 0 || i == 1 || i == 2 || i == 3 || i == 4 || i == 5 || i == 6;
      } else {
        assert i == 7 || i == 8 || i == 9 || i == 10 || i == 11 || i == 12 || i == 13;
      }
    }
  }

  /** `entry.current(0)`: the combobox of question c preselects the first key of its inner dict. */
  function DefaultAnswer(c: CatField): (answer: string)
    ensures c in Mappings && answer in Keys(Mappings[c])
    ensures Code(Mappings, c, answer) == Success(0)
  {
    MappingsValid();
    CodeOf(Mappings[c], Mappings[c][0].0);
    CodeSpec(Mappings, c, Mappings[c][0].0);
    Keys(Mappings[c])[0]
  }

  /** What the read-only comboboxes can hold: every answer is a key of its question. */
  predicate ComboboxRecord(r: Record) {
    forall c: CatField :: c in Mappings && Answer(r, c) in Keys(Mappings[c])
  }

  /** The labels of MAPPINGS are never the empty string. */
  lemma LabelsNonEmpty(c: CatField, answer: string)
    requires answer in Keys(Mappings[c])
    ensures answer != ""
  {
    SameAsWeb();
    WebApp.MappingsEntries();
    match c
    case MaritalStatus =>
    case EducationLevel =>
    case _ =>
  }

  /**
   * The encoder itself does not check for empty answers: an empty answer is
   * not a label, so without the validation loop it would surface as a
   * KeyError of the lookup rather than as a missing value.
   */
  lemma EmptyAnswerFails(r: Record, c: CatField)
    requires Answer(r, c) == ""
    ensures Encode(Mappings, r).Failure?
    ensures Encode(WebApp.Mappings, r).Failure?
  {
    SameAsWeb();
    MappingsValid();
    EncodeSucceedsIff(Mappings, r);
    if Answer(r, c) in Keys(Mappings[c]) {
      LabelsNonEmpty(c, Answer(r, c));
    }
  }

  /**
   * A record read from the comboboxes passes validation and encodes, each
   * categorical entry a code below its cardinality.
   */
  lemma ComboboxRecordEncodes(r: Record)
    requires ComboboxRecord(r)
    ensures FirstMissing(Items(r)).None?
    ensures Encode(Mappings, r).Success?
    ensures |Encode(Mappings, r).value| == 14
    ensures forall c: CatField ::
      0.0 <= Encode(Mappings, r).value[Position(Categorical(c))] <= (|Mappings[c]| - 1) as real
  {
    MappingsValid();
    forall c: CatField ensures Answer(r, c) != "" {
      LabelsNonEmpty(c, Answer(r, c));
    }
    MissingIsEmptyAnswer(r);
    EncodeSucceedsIff(Mappings, r);
    var v := Encode(Mappings, r).value;
    EncodedVector(Mappings, r, v);
    EncodedCodesInRange(Mappings, r, v);
  }

  /** With every combobox left at its preselected label, every categorical entry is 0. */
  lemma DefaultsEncodeToZero(r: Record)
    requires forall c: CatField :: Answer(r, c) == DefaultAnswer(c)
    ensures Encode(Mappings, r).Success?
    ensures |Encode(Mappings, r).value| == 14
    ensures forall c: CatField :: Encode(Mappings, r).value[Position(Categorical(c))] == 0.0
  {
    MappingsValid();
    EncodeSucceedsIff(Mappings, r);
    var v := Encode(Mappings, r).value;
    EncodedVector(Mappings, r, v);
  }
}
