/**
 * The web front end: its copy of MAPPINGS and of `preprocess_input`, the
 * numeric bounds and select-box options of its form, and the branch that
 * turns the classifier's answer into one of two banners.
 */
module WebApp {
  import opened Wrappers
  import opened PyDict
  import opened LabelEncoding
  import opened Survey

  // The inner dicts of MAPPINGS, as the web front end writes them.
  const MaritalStatusCodes: Dict<string, int> := [("Divorced", 0), ("Married", 1), ("Single", 2), ("Widowed", 3)]
  const EducationLevelCodes: Dict<string, int> :=
    [("Associate Degree", 0), ("Bachelor's Degree", 1), ("High School", 2), ("Master's Degree", 3), ("PhD", 4)]
  const SmokingStatusCodes: Dict<string, int> := [("Current", 0), ("Former", 1), ("Non-smoker", 2)]
  const PhysicalActivityLevelCodes: Dict<string, int> := [("Active", 0), ("Moderate", 1), ("Sedentary", 2)]
  const EmploymentStatusCodes: Dict<string, int> := [("Employed", 0), ("Unemployed", 1)]
  const AlcoholConsumptionCodes: Dict<string, int> := [("High", 0), ("Low", 1), ("Moderate", 2)]
  const DietaryHabitsCodes: Dict<string, int> := [("Healthy", 0), ("Moderate", 1), ("Unhealthy", 2)]
  const SleepPatternsCodes: Dict<string, int> := [("Fair", 0), ("Good", 1), ("Poor", 2)]
  const MentalIllnessCodes: Dict<string, int> := [("No", 0), ("Yes", 1)]
  const SubstanceAbuseCodes: Dict<string, int> := [("No", 0), ("Yes", 1)]
  const FamilyHistoryCodes: Dict<string, int> := [("No", 0), ("Yes", 1)]

  /** MAPPINGS: question to inner dict. */
  const Mappings: Table := map[
    MaritalStatus := MaritalStatusCodes,
    EducationLevel := EducationLevelCodes,
    SmokingStatus := SmokingStatusCodes,
    PhysicalActivityLevel := PhysicalActivityLevelCodes,
    EmploymentStatus := EmploymentStatusCodes,
    AlcoholConsumption := AlcoholConsumptionCodes,
    DietaryHabits := DietaryHabitsCodes,
    SleepPatterns := SleepPatternsCodes,
    MentalIllnessHistory := MentalIllnessCodes,
    SubstanceAbuseHistory := SubstanceAbuseCodes,
    FamilyHistoryDepression := FamilyHistoryCodes
  ]

  /** MAPPINGS[c] is the inner dict written for c. */
  lemma MappingsEntries()
    ensures Mappings.Keys == {MaritalStatus, EducationLevel, SmokingStatus, PhysicalActivityLevel,
      EmploymentStatus, AlcoholConsumption, DietaryHabits, SleepPatterns, MentalIllnessHistory,
      SubstanceAbuseHistory, FamilyHistoryDepression}
    ensures Mappings[MaritalStatus] == MaritalStatusCodes && Mappings[EducationLevel] == EducationLevelCodes
    ensures Mappings[SmokingStatus] == SmokingStatusCodes && Mappings[PhysicalActivityLevel] == PhysicalActivityLevelCodes
    ensures Mappings[EmploymentStatus] == EmploymentStatusCodes && Mappings[AlcoholConsumption] == AlcoholConsumptionCodes
    ensures Mappings[DietaryHabits] == DietaryHabitsCodes && Mappings[SleepPatterns] == SleepPatternsCodes
    ensures Mappings[MentalIllnessHistory] == MentalIllnessCodes && Mappings[SubstanceAbuseHistory] == SubstanceAbuseCodes
    ensures Mappings[FamilyHistoryDepression] == FamilyHistoryCodes
  {
  }

  /**
   * Every categorical question has an entry, its labels are sorted and coded
   * 0..n-1 by position, and the cardinalities are 4, 5, 3, 3, 2, 3, 3, 3, 2, 2, 2.
   */
  lemma MappingsValid()
    ensures ValidTable(Mappings)
    ensures |Mappings[MaritalStatus]| == 4 && |Mappings[EducationLevel]| == 5
    ensures |Mappings[SmokingStatus]| == 3 && |Mappings[PhysicalActivityLevel]| == 3
    ensures |Mappings[EmploymentStatus]| == 2 && |Mappings[AlcoholConsumption]| == 3
    ensures |Mappings[DietaryHabits]| == 3 && |Mappings[SleepPatterns]| == 3
    ensures |Mappings[MentalIllnessHistory]| == 2 && |Mappings[SubstanceAbuseHistory]| == 2
    ensures |Mappings[FamilyHistoryDepression]| == 2
  {
    MappingsEntries();
    forall c: CatField ensures c in Mappings && LabelEncoded(Mappings[c]) {
      match c
      case MaritalStatus => CodedFromZero(MaritalStatusCodes);
      case EducationLevel => CodedFromZero(EducationLevelCodes);
      case SmokingStatus => CodedFromZero(SmokingStatusCodes);
      case PhysicalActivityLevel => CodedFromZero(PhysicalActivityLevelCodes);
      case EmploymentStatus => CodedFromZero(EmploymentStatusCodes);
      case AlcoholConsumption => CodedFromZero(AlcoholConsumptionCodes);
      case DietaryHabits => CodedFromZero(DietaryHabitsCodes);
      case SleepPatterns => CodedFromZero(SleepPatternsCodes);
      case MentalIllnessHistory => CodedFromZero(MentalIllnessCodes);
      case SubstanceAbuseHistory => CodedFromZero(SubstanceAbuseCodes);
      case FamilyHistoryDepression => CodedFromZero(FamilyHistoryCodes);
    }
  }

  /** `preprocess_input` of the web front end, on its MAPPINGS. */
  method PreprocessInput(data: Record) returns (out: Result<seq<real>, Error>)
    ensures out == Encode(Mappings, data)
  {
    out := Survey.PreprocessInput(Mappings, data);
  }

  // ---------------------------------------------------------------------
  // The prediction form

  /**
   * A record the form can submit: the number inputs keep Age in [0, 120],
   * Number of Children in [0, 20] and Income at or above 0, and every select
   * box offers exactly the keys of its MAPPINGS entry.
   */
  predicate FormRecord(r: Record) {
    && 0 <= r.age <= 120
    && 0 <= r.numberOfChildren <= 20
    && 0.0 <= r.income
    && forall c: CatField :: c in Mappings && Answer(r, c) in Keys(Mappings[c])
  }

  /**
   * What the form submits always encodes: no KeyError is possible, the
   * numeric bounds hold at positions 0, 3 and 7, and each categorical entry
   * is a code below the cardinality of its question.
   */
  lemma FormRecordEncodes(r: Record)
    requires FormRecord(r)
    ensures Encode(Mappings, r).Success?
    ensures |Encode(Mappings, r).value| == 14
    ensures 0.0 <= Encode(Mappings, r).value[0] <= 120.0
    ensures 0.0 <= Encode(Mappings, r).value[3] <= 20.0
    ensures 0.0 <= Encode(Mappings, r).value[7]
    ensures forall c: CatField ::
      0.0 <= Encode(Mappings, r).value[Position(Categorical(c))] <= (|Mappings[c]| - 1) as real
  {
    MappingsValid();
    EncodeSucceedsIff(Mappings, r);
    var v := Encode(Mappings, r).value;
    EncodedVector(Mappings, r, v);
    EncodedCodesInRange(Mappings, r, v);
  }

  // ---------------------------------------------------------------------
  // The prediction branch

  /** What the page shows after a submission: the `st.error` or `st.success` prediction banner, or the exception. */
  datatype Alert =
    | ErrorAlert(text: string)
    | SuccessAlert(text: string)
    | RaisedAlert(error: Error)    // the `except` branch, `st.error` on the exception

  const HighRiskText: string :=
    "\U{26A0}\U{FE0F} **Prediction:** High Risk. This profile is associated with a higher likelihood of chronic disease/depression."
  const LowRiskText: string :=
    "\U{2705} **Prediction:** Low Risk. This profile is not strongly associated with chronic disease/depression."

  /** Only a prediction of exactly 1 is reported as high risk; every other value is low risk. */
  function PredictionAlert(prediction: int): (a: Alert)
    ensures a.ErrorAlert? <==> prediction == 1
    ensures a.ErrorAlert? ==> a.text == HighRiskText
    ensures a.SuccessAlert? ==> a.text == LowRiskText
    ensures !a.RaisedAlert?
  {
    if prediction == 1 then ErrorAlert(HighRiskText) else SuccessAlert(LowRiskText)
  }

  /**
   * The `if submitted:` block: encode the record, classify the one-row
   * vector, show the banner for the prediction; a KeyError from the
   * encoder or a failure of the classifier is shown instead.
   * `classify` stands for `model.predict(...)[0]`; None means it raised.
   */
  method OnSubmit(data: Record, classify: seq<real> -> Option<int>) returns (shown: Alert)
    ensures Encode(Mappings, data).Failure? ==> shown == RaisedAlert(Encode(Mappings, data).error)
    ensures Encode(Mappings, data).Success? && classify(Encode(Mappings, data).value).None? ==>
      shown == RaisedAlert(InferenceError)
    ensures Encode(Mappings, data).Success? && classify(Encode(Mappings, data).value).Some? ==>
      shown == PredictionAlert(classify(Encode(Mappings, data).value).value)
  {
    var processed := PreprocessInput(data);
    if processed.Failure? {
      return RaisedAlert(processed.error);
    }
    var prediction := classify(processed.value);
    if prediction.None? {
      return RaisedAlert(InferenceError);
    }
    shown := PredictionAlert(prediction.value);
  }

  // ---------------------------------------------------------------------
  // Two concrete records

  /** The codes of the answers in the example record below. */
  lemma MarriedExampleCodes()
    ensures Code(Mappings, MaritalStatus, "Married") == Success(1)
    ensures Code(Mappings, EducationLevel, "Associate Degree") == Success(0)
    ensures Code(Mappings, SmokingStatus, "Current") == Success(0)
    ensures Code(Mappings, PhysicalActivityLevel, "Active") == Success(0)
    ensures Code(Mappings, EmploymentStatus, "Employed") == Success(0)
    ensures Code(Mappings, AlcoholConsumption, "High") == Success(0)
    ensures Code(Mappings, DietaryHabits, "Healthy") == Success(0)
    ensures Code(Mappings, SleepPatterns, "Fair") == Success(0)
    ensures Code(Mappings, MentalIllnessHistory, "No") == Success(0)
    ensures Code(Mappings, SubstanceAbuseHistory, "No") == Success(0)
    ensures Code(Mappings, FamilyHistoryDepression, "No") == Success(0)
  {
    MappingsEntries();
  }

  /** The first seven columns of the example below. */
  lemma MarriedExampleHead(r: Record)
    requires r == Record(30, "Married", "Associate Degree", 0, "Current", "Active", "Employed",
      50000.0, "High", "Healthy", "Fair", "No", "No", "No")
    ensures Encode(Mappings, r) == EncodeFrom(Mappings, r, Layout, 7, [30.0, 1.0, 0.0, 0.0, 0.0, 0.0, 0.0])
  {
    hide EncodeFrom, Code;
    LayoutColumns();
    MarriedExampleCodes();
    var v: seq<real> := [];
    NumericStep(Mappings, r, Layout, 0, Age, v);
    v := v + [30.0];
    CategoricalStep(Mappings, r, Layout, 1, MaritalStatus, v);
    v := v + [1.0];
    CategoricalStep(Mappings, r, Layout, 2, EducationLevel, v);
    v := v + [0.0];
    NumericStep(Mappings, r, Layout, 3, NumberOfChildren, v);
    v := v + [0.0];
    CategoricalStep(Mappings, r, Layout, 4, SmokingStatus, v);
    v := v + [0.0];
    CategoricalStep(Mappings, r, Layout, 5, PhysicalActivityLevel, v);
    v := v + [0.0];
    CategoricalStep(Mappings, r, Layout, 6, EmploymentStatus, v);
    v := v + [0.0];
    assert v == [30.0, 1.0, 0.0, 0.0, 0.0, 0.0, 0.0];
  }

  /** The form's defaults with "Married" and the other first options: the vector, entry by entry. */
  lemma MarriedExample(r: Record)
    requires r == Record(30, "Married", "Associate Degree", 0, "Current", "Active", "Employed",
      50000.0, "High", "Healthy", "Fair", "No", "No", "No")
    ensures Encode(Mappings, r) == Success([30.0, 1.0, 0.0, 0.0, 0.0, 0.0, 0.0, 50000.0, 0.0, 0.0, 0.0, 0.0, 0.0, 0.0])
  {
    // Column by column, as preprocess_input appends them.
    hide EncodeFrom, Code;
    MarriedExampleHead(r);
    LayoutColumns();
    MarriedExampleCodes();
    var v: seq<real> := [30.0, 1.0, 0.0, 0.0, 0.0, 0.0, 0.0];
    NumericStep(Mappings, r, Layout, 7, Income, v);
    v := v + [50000.0];
    CategoricalStep(Mappings, r, Layout, 8, AlcoholConsumption, v);
    v := v + [0.0];
    CategoricalStep(Mappings, r, Layout, 9, DietaryHabits, v);
    v := v + [0.0];
    CategoricalStep(Mappings, r, Layout, 10, SleepPatterns, v);
    v := v + [0.0];
    CategoricalStep(Mappings, r, Layout, 11, MentalIllnessHistory, v);
    v := v + [0.0];
    CategoricalStep(Mappings, r, Layout, 12, SubstanceAbuseHistory, v);
    v := v + [0.0];
    CategoricalStep(Mappings, r, Layout, 13, FamilyHistoryDepression, v);
    v := v + [0.0];
    FoldDone(Mappings, r, Layout, 14, v);
    assert v == [30.0, 1.0, 0.0, 0.0, 0.0, 0.0, 0.0, 50000.0, 0.0, 0.0, 0.0, 0.0, 0.0, 0.0];
  }

  /** The codes of the answers in the married, Bachelor's-degree record below. */
  lemma DesignScenarioCodes()
    ensures Code(Mappings, MaritalStatus, "Married") == Success(1)
    ensures Code(Mappings, EducationLevel, "Bachelor's Degree") == Success(1)
    ensures Code(Mappings, SmokingStatus, "Non-smoker") == Success(2)
    ensures Code(Mappings, PhysicalActivityLevel, "Active") == Success(0)
    ensures Code(Mappings, EmploymentStatus, "Employed") == Success(0)
    ensures Code(Mappings, AlcoholConsumption, "Low") == Success(1)
    ensures Code(Mappings, DietaryHabits, "Healthy") == Success(0)
    ensures Code(Mappings, SleepPatterns, "Good") == Success(1)
    ensures Code(Mappings, MentalIllnessHistory, "No") == Success(0)
    ensures Code(Mappings, SubstanceAbuseHistory, "No") == Success(0)
    ensures Code(Mappings, FamilyHistoryDepression, "No") == Success(0)
  {
    MappingsEntries();
  }

  /** The first seven columns of the record below. */
  lemma DesignScenarioHead(r: Record)
    requires r == Record(30, "Married", "Bachelor's Degree", 0, "Non-smoker", "Active", "Employed",
      50000.0, "Low", "Healthy", "Good", "No", "No", "No")
    ensures Encode(Mappings, r) == EncodeFrom(Mappings, r, Layout, 7, [30.0, 1.0, 1.0, 0.0, 2.0, 0.0, 0.0])
  {
    hide EncodeFrom, Code;
    LayoutColumns();
    DesignScenarioCodes();
    var v: seq<real> := [];
    NumericStep(Mappings, r, Layout, 0, Age, v);
    v := v + [30.0];
    CategoricalStep(Mappings, r, Layout, 1, MaritalStatus, v);
    v := v + [1.0];
    CategoricalStep(Mappings, r, Layout, 2, EducationLevel, v);
    v := v + [1.0];
    NumericStep(Mappings, r, Layout, 3, NumberOfChildren, v);
    v := v + [0.0];
    CategoricalStep(Mappings, r, Layout, 4, SmokingStatus, v);
    v := v + [2.0];
    CategoricalStep(Mappings, r, Layout, 5, PhysicalActivityLevel, v);
    v := v + [0.0];
    CategoricalStep(Mappings, r, Layout, 6, EmploymentStatus, v);
    v := v + [0.0];
    assert v == [30.0, 1.0, 1.0, 0.0, 2.0, 0.0, 0.0];
  }

  /**
   * A married, Bachelor's-degree, non-smoking respondent with low alcohol use
   * and good sleep: codes past the first label (1 and 2) land in their columns.
   */
  lemma DesignScenario(r: Record)
    requires r == Record(30, "Married", "Bachelor's Degree", 0, "Non-smoker", "Active", "Employed",
      50000.0, "Low", "Healthy", "Good", "No", "No", "No")
    ensures Encode(Mappings, r) == Success([30.0, 1.0, 1.0, 0.0, 2.0, 0.0, 0.0, 50000.0, 1.0, 0.0, 1.0, 0.0, 0.0, 0.0])
  {
    hide EncodeFrom, Code;
    DesignScenarioHead(r);
    LayoutColumns();
    DesignScenarioCodes();
    var v: seq<real> := [30.0, 1.0, 1.0, 0.0, 2.0, 0.0, 0.0];
    NumericStep(Mappings, r, Layout, 7, Income, v);
    v := v + [50000.0];
    CategoricalStep(Mappings, r, Layout, 8, AlcoholConsumption, v);
    v := v + [1.0];
    CategoricalStep(Mappings, r, Layout, 9, DietaryHabits, v);
    v := v + [0.0];
    CategoricalStep(Mappings, r, Layout, 10, SleepPatterns, v);
    v := v + [1.0];
    CategoricalStep(Mappings, r, Layout, 11, MentalIllnessHistory, v);
    v := v + [0.0];
    CategoricalStep(Mappings, r, Layout, 12, SubstanceAbuseHistory, v);
    v := v + [0.0];
    CategoricalStep(Mappings, r, Layout, 13, FamilyHistoryDepression, v);
    v := v + [0.0];
    FoldDone(Mappings, r, Layout, 14, v);
    assert v == [30.0, 1.0, 1.0, 0.0, 2.0, 0.0, 0.0, 50000.0, 1.0, 0.0, 1.0, 0.0, 0.0, 0.0];
  }

  /** An answer the table does not know is reported as the KeyError of its lookup, before any later column. */
  lemma UnknownAnswerExample(r: Record)
    requires r == Record(30, "Engaged", "PhD", 0, "Current", "Active", "Employed",
      50000.0, "High", "Healthy", "Fair", "No", "No", "No")
    ensures Encode(Mappings, r) == Failure(UnknownCategory(MaritalStatus, "Engaged"))
  {
    assert Code(Mappings, MaritalStatus, "Engaged") == Failure(UnknownCategory(MaritalStatus, "Engaged")) by {
      MappingsEntries();
    }
    hide EncodeFrom, Code;
    LayoutColumns();
    NumericStep(Mappings, r, Layout, 0, Age, []);
    CategoricalStep(Mappings, r, Layout, 1, MaritalStatus, [30.0]);
  }
}
