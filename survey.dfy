/**
 * What the web and the desktop front ends share: the fourteen survey
 * questions, the record a submission builds, the feature-vector layout, the
 * errors, and the reference definition of the encoder that both copies of
 * `preprocess_input` implement.
 */
module Survey {
  import opened Wrappers
  import opened PyDict
  import opened LabelEncoding

  datatype NumField = Age | NumberOfChildren | Income

  datatype CatField =
    | MaritalStatus | EducationLevel | SmokingStatus | PhysicalActivityLevel
    | EmploymentStatus | AlcoholConsumption | DietaryHabits | SleepPatterns
    | MentalIllnessHistory | SubstanceAbuseHistory | FamilyHistoryDepression

  /** A survey question: one numeric or categorical column of the vector. */
  datatype Field = Numeric(num: NumField) | Categorical(cat: CatField)

  /** The key under which the question appears in the record dict and in MAPPINGS. */
  function Name(f: Field): string {
    match f
    case Numeric(Age) => "Age"
    case Numeric(NumberOfChildren) => "Number of Children"
    case Numeric(Income) => "Income"
    case Categorical(MaritalStatus) => "Marital Status"
    case Categorical(EducationLevel) => "Education Level"
    case Categorical(SmokingStatus) => "Smoking Status"
    case Categorical(PhysicalActivityLevel) => "Physical Activity Level"
    case Categorical(EmploymentStatus) => "Employment Status"
    case Categorical(AlcoholConsumption) => "Alcohol Consumption"
    case Categorical(DietaryHabits) => "Dietary Habits"
    case Categorical(SleepPatterns) => "Sleep Patterns"
    case Categorical(MentalIllnessHistory) => "History of Mental Illness"
    case Categorical(SubstanceAbuseHistory) => "History of Substance Abuse"
    case Categorical(FamilyHistoryDepression) => "Family History of Depression"
  }

  /** One submission, numbers already parsed; categorical answers are free strings. */
  datatype Record = Record(
    age: int,
    maritalStatus: string,
    educationLevel: string,
    numberOfChildren: int,
    smokingStatus: string,
    physicalActivityLevel: string,
    employmentStatus: string,
    income: real,
    alcoholConsumption: string,
    dietaryHabits: string,
    sleepPatterns: string,
    mentalIllness: string,
    substanceAbuse: string,
    familyHistory: string)

  /** `data[f]` for a numeric question, as the float it becomes in the vector. */
  function Number(r: Record, n: NumField): real {
    match n
    case Age => r.age as real
    case NumberOfChildren => r.numberOfChildren as real
    case Income => r.income
  }

  /** `data[f]` for a categorical question. */
  function Answer(r: Record, c: CatField): string {
    match c
    case MaritalStatus => r.maritalStatus
    case EducationLevel => r.educationLevel
    case SmokingStatus => r.smokingStatus
    case PhysicalActivityLevel => r.physicalActivityLevel
    case EmploymentStatus => r.employmentStatus
    case AlcoholConsumption => r.alcoholConsumption
    case DietaryHabits => r.dietaryHabits
    case SleepPatterns => r.sleepPatterns
    case MentalIllnessHistory => r.mentalIllness
    case SubstanceAbuseHistory => r.substanceAbuse
    case FamilyHistoryDepression => r.familyHistory
  }

  /** A Python value held by the record dict. */
  datatype Value = IntV(i: int) | FloatV(x: real) | StrV(s: string) | NoneV

  /** The `user_data` dict both front ends build, in its insertion order. */
  function Items(r: Record): Dict<Field, Value> {
    [ (Numeric(Age), IntV(r.age)),
      (Categorical(MaritalStatus), StrV(r.maritalStatus)),
      (Categorical(EducationLevel), StrV(r.educationLevel)),
      (Numeric(NumberOfChildren), IntV(r.numberOfChildren)),
      (Categorical(SmokingStatus), StrV(r.smokingStatus)),
      (Categorical(PhysicalActivityLevel), StrV(r.physicalActivityLevel)),
      (Categorical(EmploymentStatus), StrV(r.employmentStatus)),
      (Numeric(Income), FloatV(r.income)),
      (Categorical(AlcoholConsumption), StrV(r.alcoholConsumption)),
      (Categorical(DietaryHabits), StrV(r.dietaryHabits)),
      (Categorical(SleepPatterns), StrV(r.sleepPatterns)),
      (Categorical(MentalIllnessHistory), StrV(r.mentalIllness)),
      (Categorical(SubstanceAbuseHistory), StrV(r.substanceAbuse)),
      (Categorical(FamilyHistoryDepression), StrV(r.familyHistory)) ]
  }

  /** The column order of the feature vector, the one the classifier was trained on. */
  const Layout: seq<Field> := [
    Numeric(Age), Categorical(MaritalStatus), Categorical(EducationLevel),
    Numeric(NumberOfChildren), Categorical(SmokingStatus),
    Categorical(PhysicalActivityLevel), Categorical(EmploymentStatus),
    Numeric(Income), Categorical(AlcoholConsumption), Categorical(DietaryHabits),
    Categorical(SleepPatterns), Categorical(MentalIllnessHistory),
    Categorical(SubstanceAbuseHistory), Categorical(FamilyHistoryDepression)]

  /** Layout, column by column. */
  lemma LayoutColumns()
    ensures |Layout| == 14
    ensures Layout[0] == Numeric(Age) && Layout[1] == Categorical(MaritalStatus)
    ensures Layout[2] == Categorical(EducationLevel) && Layout[3] == Numeric(NumberOfChildren)
    ensures Layout[4] == Categorical(SmokingStatus) && Layout[5] == Categorical(PhysicalActivityLevel)
    ensures Layout[6] == Categorical(EmploymentStatus) && Layout[7] == Numeric(Income)
    ensures Layout[8] == Categorical(AlcoholConsumption) && Layout[9] == Categorical(DietaryHabits)
    ensures Layout[10] == Categorical(SleepPatterns) && Layout[11] == Categorical(MentalIllnessHistory)
    ensures Layout[12] == Categorical(SubstanceAbuseHistory) && Layout[13] == Categorical(FamilyHistoryDepression)
  {
  }

  /** The column of question `f` in the vector. */
  function Position(f: Field): (p: nat)
    ensures p < |Layout| && Layout[p] == f
  {
    match f
    case Numeric(Age) => 0
    case Categorical(MaritalStatus) => 1
    case Categorical(EducationLevel) => 2
    case Numeric(NumberOfChildren) => 3
    case Categorical(SmokingStatus) => 4
    case Categorical(PhysicalActivityLevel) => 5
    case Categorical(EmploymentStatus) => 6
    case Numeric(Income) => 7
    case Categorical(AlcoholConsumption) => 8
    case Categorical(DietaryHabits) => 9
    case Categorical(SleepPatterns) => 10
    case Categorical(MentalIllnessHistory) => 11
    case Categorical(SubstanceAbuseHistory) => 12
    case Categorical(FamilyHistoryDepression) => 13
  }

  /** Each question has exactly one column: Layout lists all fourteen, none twice. */
  lemma LayoutIsBijection()
    ensures |Layout| == 14
    ensures forall i :: 0 <= i < |Layout| ==> Position(Layout[i]) == i
  {
  }

  /** `data[f]`: the value the record dict holds for question f. */
  function ValueOf(r: Record, f: Field): Value {
    match f
    case Numeric(Income) => FloatV(r.income)
    case Numeric(Age) => IntV(r.age)
    case Numeric(NumberOfChildren) => IntV(r.numberOfChildren)
    case Categorical(c) => StrV(Answer(r, c))
  }

  /**
   * The dict built from a record has its keys in vector order, each beside
   * its answer: the pair at the column of f is (f, data[f]).
   */
  lemma ItemsFollowLayout(r: Record)
    ensures |Items(r)| == |Layout|
    ensures forall f: Field :: Items(r)[Position(f)] == (f, ValueOf(r, f))
  {
  }

  datatype Error =
    | UnknownField(field: CatField)                      // KeyError from MAPPINGS[field]
    | UnknownCategory(field: CatField, answer: string)   // KeyError from MAPPINGS[field][answer]
    | MissingField(key: Field)                          // ValueError("Missing value for " + key)
    | InferenceError                                    // an exception raised by model.predict

  /** MAPPINGS: for each categorical question, its answers and their codes. */
  type Table = map<CatField, Dict<string, int>>

  /** The table has an entry for every categorical question. */
  predicate Covers(t: Table) {
    forall c: CatField :: c in t
  }

  /** Covers, and every entry has the LabelEncoder shape. */
  predicate ValidTable(t: Table) {
    Covers(t) && forall c: CatField :: LabelEncoded(t[c])
  }

  /** `MAPPINGS[c][answer]`: either subscript may raise KeyError. */
  function Code(t: Table, c: CatField, answer: string): Result<int, Error> {
    if c !in t then Failure(UnknownField(c))
    else
      match Get(t[c], answer)
      case Some(k) => Success(k)
      case None => Failure(UnknownCategory(c, answer))
  }

  /**
   * The lookup raises when the question has no entry, and otherwise exactly
   * when the answer is not a key of the question's dict.
   */
  lemma CodeSpec(t: Table, c: CatField, answer: string)
    ensures Code(t, c, answer).Success? <==> c in t && answer in Keys(t[c])
    ensures c !in t ==> Code(t, c, answer) == Failure(UnknownField(c))
    ensures c in t && answer !in Keys(t[c]) ==> Code(t, c, answer) == Failure(UnknownCategory(c, answer))
  {
    if c in t {
      GetSpec(t[c], answer);
    }
  }

  /** The vector entry for one column. */
  function EncodeField(t: Table, r: Record, f: Field): Result<real, Error>
  {
    match f
    case Numeric(n) => Success(Number(r, n))
    case Categorical(c) =>
      match Code(t, c, Answer(r, c))
      case Success(k) => Success(k as real)
      case Failure(e) => Failure(e)
  }

  /**
   * Appends the entries of columns k, k+1, ... of `cols` to `acc`, one
   * column at a time, stopping at the first column whose answer has no code.
   */
  function EncodeFrom(t: Table, r: Record, cols: seq<Field>, k: nat, acc: seq<real>): Result<seq<real>, Error>
    decreases |cols| - k
  {
    if k >= |cols| then Success(acc)
    else
      match EncodeField(t, r, cols[k])
      case Failure(e) => Failure(e)
      case Success(x) => EncodeFrom(t, r, cols, k + 1, acc + [x])
  }

  /** The feature vector of a record: every Layout column in order. */
  function Encode(t: Table, r: Record): Result<seq<real>, Error>
  {
    EncodeFrom(t, r, Layout, 0, [])
  }

  // ---------------------------------------------------------------------
  // Properties of the reference encoder, for any list of columns

  /** Encoding from column k succeeds exactly when every column from k on succeeds. */
  lemma {:induction false} EncodeFromSucceedsIff(t: Table, r: Record, cols: seq<Field>, k: nat, acc: seq<real>)
    ensures EncodeFrom(t, r, cols, k, acc).Success? <==>
            forall i :: k <= i < |cols| ==> EncodeField(t, r, cols[i]).Success?
    decreases |cols| - k
  {
    if k < |cols| && EncodeField(t, r, cols[k]).Success? {
      EncodeFromSucceedsIff(t, r, cols, k + 1, acc + [EncodeField(t, r, cols[k]).value]);
    }
  }

  /** A successful result is `acc` followed by one entry per column from k on, in column order. */
  lemma {:induction false} EncodeFromValues(t: Table, r: Record, cols: seq<Field>, k: nat, acc: seq<real>, v: seq<real>)
    requires k <= |cols|
    requires EncodeFrom(t, r, cols, k, acc) == Success(v)
    ensures |v| == |acc| + |cols| - k
    ensures v[..|acc|] == acc
    ensures forall i :: k <= i < |cols| ==> EncodeField(t, r, cols[i]) == Success(v[|acc| + i - k])
    decreases |cols| - k
  {
    if k < |cols| {
      var x := EncodeField(t, r, cols[k]).value;
      EncodeFromValues(t, r, cols, k + 1, acc + [x], v);
      assert v[..|acc| + 1] == acc + [x];
      assert v[..|acc|] == (acc + [x])[..|acc|];
    }
  }

  /** Encoding all columns from an empty vector: entry i is column i's entry. */
  lemma EncodeFromEntries(t: Table, r: Record, cols: seq<Field>, v: seq<real>)
    requires EncodeFrom(t, r, cols, 0, []) == Success(v)
    ensures |v| == |cols|
    ensures forall i :: 0 <= i < |cols| ==> EncodeField(t, r, cols[i]) == Success(v[i])
  {
    var empty: seq<real> := [];
    EncodeFromValues(t, r, cols, 0, empty, v);
    forall i | 0 <= i < |cols| ensures EncodeField(t, r, cols[i]) == Success(v[i]) {
      assert |empty| + i - 0 == i;
    }
  }

  /** A failure is the error of the first column from k on that fails. */
  lemma {:induction false} EncodeFromFirstError(t: Table, r: Record, cols: seq<Field>, k: nat, acc: seq<real>)
    requires EncodeFrom(t, r, cols, k, acc).Failure?
    ensures exists j ::
      && k <= j < |cols|
      && EncodeField(t, r, cols[j]) == Failure(EncodeFrom(t, r, cols, k, acc).error)
      && forall i :: k <= i < j ==> EncodeField(t, r, cols[i]).Success?
    decreases |cols| - k
  {
    var e := EncodeFrom(t, r, cols, k, acc).error;
    if EncodeField(t, r, cols[k]).Success? {
      EncodeFromFirstError(t, r, cols, k + 1, acc + [EncodeField(t, r, cols[k]).value]);
    } else {
      assert EncodeField(t, r, cols[k]) == Failure(e);
    }
  }

  /** A numeric column k contributes its number unchanged. */
  lemma NumericStep(t: Table, r: Record, cols: seq<Field>, k: nat, n: NumField, acc: seq<real>)
    requires k < |cols| && cols[k] == Numeric(n)
    ensures EncodeFrom(t, r, cols, k, acc) == EncodeFrom(t, r, cols, k + 1, acc + [Number(r, n)])
  {
  }

  /** A categorical column k contributes its answer's code, or stops the fold with the failed lookup. */
  lemma CategoricalStep(t: Table, r: Record, cols: seq<Field>, k: nat, c: CatField, acc: seq<real>)
    requires k < |cols| && cols[k] == Categorical(c)
    ensures Code(t, c, Answer(r, c)).Failure? ==>
      EncodeFrom(t, r, cols, k, acc) == Failure(Code(t, c, Answer(r, c)).error)
    ensures Code(t, c, Answer(r, c)).Success? ==>
      EncodeFrom(t, r, cols, k, acc) == EncodeFrom(t, r, cols, k + 1, acc + [Code(t, c, Answer(r, c)).value as real])
  {
  }

  // ---------------------------------------------------------------------
  // Properties of the encoder on the fixed Layout

  /** The entry at the column of question f is f's entry. */
  lemma LayoutEntries(t: Table, r: Record, v: seq<real>)
    requires Encode(t, r) == Success(v)
    ensures |v| == 14
    ensures forall f: Field :: EncodeField(t, r, f) == Success(v[Position(f)])
  {
    EncodeFromEntries(t, r, Layout, v);
    forall f: Field ensures EncodeField(t, r, f) == Success(v[Position(f)]) {
      assert EncodeField(t, r, Layout[Position(f)]) == Success(v[Position(f)]);
    }
  }

  /**
   * A successful encoding has fourteen entries: the three numbers unchanged
   * at positions 0, 3 and 7, and at the column of each categorical question
   * the code MAPPINGS gives its answer.
   */
  lemma EncodedVector(t: Table, r: Record, v: seq<real>)
    requires Encode(t, r) == Success(v)
    ensures |v| == 14
    ensures v[0] == r.age as real && v[3] == r.numberOfChildren as real && v[7] == r.income
    ensures forall c: CatField ::
      Code(t, c, Answer(r, c)).Success? && v[Position(Categorical(c))] == Code(t, c, Answer(r, c)).value as real
  {
    LayoutEntries(t, r, v);
    FieldEntries(t, r, v);
  }

  /** The per-question reading of a vector whose every column holds its question's entry. */
  lemma FieldEntries(t: Table, r: Record, v: seq<real>)
    requires |v| == 14
    requires forall f: Field :: EncodeField(t, r, f) == Success(v[Position(f)])
    ensures v[0] == r.age as real && v[3] == r.numberOfChildren as real && v[7] == r.income
    ensures forall c: CatField ::
      Code(t, c, Answer(r, c)).Success? && v[Position(Categorical(c))] == Code(t, c, Answer(r, c)).value as real
  {
    assert EncodeField(t, r, Numeric(Age)) == Success(v[Position(Numeric(Age))]);
    assert EncodeField(t, r, Numeric(NumberOfChildren)) == Success(v[Position(Numeric(NumberOfChildren))]);
    assert EncodeField(t, r, Numeric(Income)) == Success(v[Position(Numeric(Income))]);
    forall c: CatField ensures
      Code(t, c, Answer(r, c)).Success? && v[Position(Categorical(c))] == Code(t, c, Answer(r, c)).value as real
    {
      assert EncodeField(t, r, Categorical(c)) == Success(v[Position(Categorical(c))]);
    }
  }

  /** Encoding succeeds exactly when every categorical answer is a key of its question's map. */
  lemma EncodeSucceedsIff(t: Table, r: Record)
    requires Covers(t)
    ensures Encode(t, r).Success? <==> forall c: CatField :: Answer(r, c) in Keys(t[c])
  {
    EncodeFromSucceedsIff(t, r, Layout, 0, []);
    if Encode(t, r).Success? {
      forall c: CatField ensures Answer(r, c) in Keys(t[c]) {
        assert EncodeField(t, r, Layout[Position(Categorical(c))]).Success?;
        CodeSpec(t, c, Answer(r, c));
      }
    } else {
      var i :| 0 <= i < |Layout| && EncodeField(t, r, Layout[i]).Failure?;
      var c := Layout[i].cat;
      CodeSpec(t, c, Answer(r, c));
      assert Answer(r, c) !in Keys(t[c]);
    }
  }

  /** Column k is the first column that fails: it is categorical and its answer is the first unknown one. */
  lemma FirstFailingColumn(t: Table, r: Record, e: Error, k: nat)
    requires Covers(t)
    requires k < |Layout| && EncodeField(t, r, Layout[k]) == Failure(e)
    requires forall j :: 0 <= j < k ==> EncodeField(t, r, Layout[j]).Success?
    ensures Layout[k].Categorical?
    ensures var c := Layout[k].cat;
      && e == UnknownCategory(c, Answer(r, c))
      && Answer(r, c) !in Keys(t[c])
      && forall d: CatField :: Position(Categorical(d)) < Position(Categorical(c)) ==> Answer(r, d) in Keys(t[d])
  {
    LayoutIsBijection();
    CodeSpec(t, Layout[k].cat, Answer(r, Layout[k].cat));
    forall d: CatField | Position(Categorical(d)) < k ensures Answer(r, d) in Keys(t[d]) {
      assert EncodeField(t, r, Layout[Position(Categorical(d))]).Success?;
      CodeSpec(t, d, Answer(r, d));
    }
  }

  /**
   * A failed encoding reports UnknownCategory for the first categorical
   * question, in vector order, whose answer is not a key.
   */
  lemma EncodeFailure(t: Table, r: Record, e: Error)
    requires Covers(t)
    requires Encode(t, r) == Failure(e)
    ensures exists c: CatField ::
      && e == UnknownCategory(c, Answer(r, c))
      && Answer(r, c) !in Keys(t[c])
      && forall d: CatField :: Position(Categorical(d)) < Position(Categorical(c)) ==> Answer(r, d) in Keys(t[d])
  {
    EncodeFromFirstError(t, r, Layout, 0, []);
    var k :| 0 <= k < |Layout|
      && EncodeField(t, r, Layout[k]) == Failure(e)
      && forall j :: 0 <= j < k ==> EncodeField(t, r, Layout[j]).Success?;
    FirstFailingColumn(t, r, e, k);
    var c := Layout[k].cat;
    assert e == UnknownCategory(c, Answer(r, c));
  }

  /** Past the last column the fold returns the accumulated vector. */
  lemma FoldDone(t: Table, r: Record, cols: seq<Field>, k: nat, acc: seq<real>)
    requires k >= |cols|
    ensures EncodeFrom(t, r, cols, k, acc) == Success(acc)
  {
  }

  /** With a LabelEncoder-shaped table, each categorical entry lies in [0, cardinality - 1]. */
  lemma EncodedCodesInRange(t: Table, r: Record, v: seq<real>)
    requires ValidTable(t)
    requires Encode(t, r) == Success(v)
    ensures |v| == 14
    ensures forall c: CatField :: 0.0 <= v[Position(Categorical(c))] <= (|t[c]| - 1) as real
  {
    EncodedVector(t, r, v);
    forall c: CatField ensures 0.0 <= v[Position(Categorical(c))] <= (|t[c]| - 1) as real {
      CodeOf(t[c], Answer(r, c));
    }
  }

  // ---------------------------------------------------------------------
  // preprocess_input

  /**
   * `vector.append(MAPPINGS[c][data[c]])` at column k: appends the code of
   * the answer, or raises the KeyError of the lookup. Either way the
   * encoding of the whole record is unchanged: it was `vector` followed by
   * the entries from column k on, and it is now the new vector followed by
   * the entries from column k + 1 on, or this error.
   */
  method AppendCode(mappings: Table, data: Record, k: nat, c: CatField, vector: seq<real>)
    returns (next: Result<seq<real>, Error>)
    requires k < |Layout| && Layout[k] == Categorical(c)
    requires EncodeFrom(mappings, data, Layout, k, vector) == Encode(mappings, data)
    ensures next.Failure? ==> next == Encode(mappings, data)
    ensures next.Success? ==> EncodeFrom(mappings, data, Layout, k + 1, next.value) == Encode(mappings, data)
  {
    CategoricalStep(mappings, data, Layout, k, c, vector);
    var code :- Code(mappings, c, Answer(data, c));
    return Success(vector + [code as real]);
  }

  /**
   * `preprocess_input`, the same code in both front ends, with the front
   * end's module-level MAPPINGS passed as `mappings`: appends the fourteen
   * entries in Layout order, and the first lookup that raises KeyError ends
   * it with that error.
   */
  method PreprocessInput(mappings: Table, data: Record) returns (out: Result<seq<real>, Error>)
    ensures out == Encode(mappings, data)
  {
    // The proof chains the step lemmas; it never unfolds the fold itself.
    hide EncodeFrom;
    LayoutColumns();
    var vector: seq<real> := [];

    // Numerical fields directly
    NumericStep(mappings, data, Layout, 0, Age, vector);
    vector := vector + [data.age as real];

    // Categorical fields with mapping
    vector :- AppendCode(mappings, data, 1, MaritalStatus, vector);
    vector :- AppendCode(mappings, data, 2, EducationLevel, vector);

    // Numerical
    NumericStep(mappings, data, Layout, 3, NumberOfChildren, vector);
    vector := vector + [data.numberOfChildren as real];

    // Categorical
    vector :- AppendCode(mappings, data, 4, SmokingStatus, vector);
    vector :- AppendCode(mappings, data, 5, PhysicalActivityLevel, vector);
    vector :- AppendCode(mappings, data, 6, EmploymentStatus, vector);

    // Numerical
    NumericStep(mappings, data, Layout, 7, Income, vector);
    vector := vector + [data.income];

    // Categorical
    vector :- AppendCode(mappings, data, 8, AlcoholConsumption, vector);
    vector :- AppendCode(mappings, data, 9, DietaryHabits, vector);
    vector :- AppendCode(mappings, data, 10, SleepPatterns, vector);
    vector :- AppendCode(mappings, data, 11, MentalIllnessHistory, vector);
    vector :- AppendCode(mappings, data, 12, SubstanceAbuseHistory, vector);
    vector :- AppendCode(mappings, data, 13, FamilyHistoryDepression, vector);

    FoldDone(mappings, data, Layout, 14, vector);
    return Success(vector);
  }
}
