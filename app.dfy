/** The serving shell of the churn model: a health probe, the JSON prediction
    endpoint, and the interactive form, both of which hand one 18-field record
    to the external scoring function `predict`.

    `predict` is not part of this model: every operation that calls it takes it
    as a parameter, a total function from the record to an `Outcome`. This
    assumes `predict` is a deterministic, terminating function of the record:
    two calls on the same dict come to the same outcome. */
module ChurnApp {
  import opened Dicts
  import opened Styling

  /** What a call to `predict` (or any call that may raise) comes to: the
      verdict it returned, or the text `str(e)` of the `Exception` it raised.
      Exceptions outside `Exception` (`SystemExit`, `KeyboardInterrupt`) are
      not modelled. */
  datatype Outcome = Returned(verdict: string) | Raised(message: string)

  // ---------------------------------------------------------------- health

  /** `GET /`: the liveness answer. It makes no call to `predict`, so nothing
      `predict` returns or raises affects the answer. Whether the app loads at
      all, given its module-level import of `predict`, is not modelled. */
  function Root(): (body: Object)
    ensures Keys(body) == ["status"]
    ensures Get(body, "status") == Some(Str("ok"))
  {
    [("status", Str("ok"))]
  }

  // ---------------------------------------------------------------- the record

  /** The request body of `POST /predict`. Every categorical field is a plain
      string: the schema enforces no enumerated domain. */
  datatype CustomerData = CustomerData(
    gender: string, Partner: string, Dependents: string,
    PhoneService: string, MultipleLines: string,
    InternetService: string, OnlineSecurity: string, OnlineBackup: string,
    DeviceProtection: string, TechSupport: string, StreamingTV: string,
    StreamingMovies: string,
    Contract: string, PaperlessBilling: string, PaymentMethod: string,
    tenure: int, MonthlyCharges: real, TotalCharges: real)

  /** The schema's field names, in declaration order. */
  const FieldNames: seq<string> := [
    "gender", "Partner", "Dependents",
    "PhoneService", "MultipleLines",
    "InternetService", "OnlineSecurity", "OnlineBackup", "DeviceProtection",
    "TechSupport", "StreamingTV", "StreamingMovies",
    "Contract", "PaperlessBilling", "PaymentMethod",
    "tenure", "MonthlyCharges", "TotalCharges"]

  lemma FieldNamesDistinct()
    ensures |FieldNames| == 18 && Distinct(FieldNames)
  {
  }

  /** `data.dict()`: one entry per schema field, in declaration order. */
  function ApiRecord(data: CustomerData): (record: Object)
    ensures |record| == 18
    ensures forall i | 0 <= i < 15 :: record[i].1.Str?
    ensures record[15].1.Int? && record[16].1.Float? && record[17].1.Float?
  {
    [("gender", Str(data.gender)), ("Partner", Str(data.Partner)),
     ("Dependents", Str(data.Dependents)),
     ("PhoneService", Str(data.PhoneService)), ("MultipleLines", Str(data.MultipleLines)),
     ("InternetService", Str(data.InternetService)),
     ("OnlineSecurity", Str(data.OnlineSecurity)), ("OnlineBackup", Str(data.OnlineBackup)),
     ("DeviceProtection", Str(data.DeviceProtection)), ("TechSupport", Str(data.TechSupport)),
     ("StreamingTV", Str(data.StreamingTV)), ("StreamingMovies", Str(data.StreamingMovies)),
     ("Contract", Str(data.Contract)), ("PaperlessBilling", Str(data.PaperlessBilling)),
     ("PaymentMethod", Str(data.PaymentMethod)),
     ("tenure", Int(data.tenure)),
     ("MonthlyCharges", Float(data.MonthlyCharges)),
     ("TotalCharges", Float(data.TotalCharges))]
  }

  /** The API record has exactly the schema's keys, in order, and looking up
      each field gives that field of the request body. */
  lemma ApiRecordShape(data: CustomerData)
    ensures Keys(ApiRecord(data)) == FieldNames
    ensures Get(ApiRecord(data), "gender") == Some(Str(data.gender))
    ensures Get(ApiRecord(data), "Partner") == Some(Str(data.Partner))
    ensures Get(ApiRecord(data), "Dependents") == Some(Str(data.Dependents))
    ensures Get(ApiRecord(data), "PhoneService") == Some(Str(data.PhoneService))
    ensures Get(ApiRecord(data), "MultipleLines") == Some(Str(data.MultipleLines))
    ensures Get(ApiRecord(data), "InternetService") == Some(Str(data.InternetService))
    ensures Get(ApiRecord(data), "OnlineSecurity") == Some(Str(data.OnlineSecurity))
    ensures Get(ApiRecord(data), "OnlineBackup") == Some(Str(data.OnlineBackup))
    ensures Get(ApiRecord(data), "DeviceProtection") == Some(Str(data.DeviceProtection))
    ensures Get(ApiRecord(data), "TechSupport") == Some(Str(data.TechSupport))
    ensures Get(ApiRecord(data), "StreamingTV") == Some(Str(data.StreamingTV))
    ensures Get(ApiRecord(data), "StreamingMovies") == Some(Str(data.StreamingMovies))
    ensures Get(ApiRecord(data), "Contract") == Some(Str(data.Contract))
    ensures Get(ApiRecord(data), "PaperlessBilling") == Some(Str(data.PaperlessBilling))
    ensures Get(ApiRecord(data), "PaymentMethod") == Some(Str(data.PaymentMethod))
    ensures Get(ApiRecord(data), "tenure") == Some(Int(data.tenure))
    ensures Get(ApiRecord(data), "MonthlyCharges") == Some(Float(data.MonthlyCharges))
    ensures Get(ApiRecord(data), "TotalCharges") == Some(Float(data.TotalCharges))
  {
    var d := ApiRecord(data);
    KeysAre(d, FieldNames);
    FieldNamesDistinct();
    // one call per entry: the postconditions name keys, not indices, so a
    // quantified call would give the verifier no term to instantiate it with
    GetAt(d, 0);
    GetAt(d, 1);
    GetAt(d, 2);
    GetAt(d, 3);
    GetAt(d, 4);
    GetAt(d, 5);
    GetAt(d, 6);
    GetAt(d, 7);
    GetAt(d, 8);
    GetAt(d, 9);
    GetAt(d, 10);
    GetAt(d, 11);
    GetAt(d, 12);
    GetAt(d, 13);
    GetAt(d, 14);
    GetAt(d, 15);
    GetAt(d, 16);
    GetAt(d, 17);
  }

  /** Distinct request bodies give distinct records: `data.dict()` loses
      nothing, so the same record always stands for the same request. */
  lemma ApiRecordInjective(a: CustomerData, b: CustomerData)
    requires ApiRecord(a) == ApiRecord(b)
    ensures a == b
  {
    var ra, rb := ApiRecord(a), ApiRecord(b);
    assert ra[0] == rb[0] && ra[1] == rb[1] && ra[2] == rb[2];
    assert ra[3] == rb[3] && ra[4] == rb[4] && ra[5] == rb[5];
    assert ra[6] == rb[6] && ra[7] == rb[7] && ra[8] == rb[8];
    assert ra[9] == rb[9] && ra[10] == rb[10] && ra[11] == rb[11];
    assert ra[12] == rb[12] && ra[13] == rb[13] && ra[14] == rb[14];
    assert ra[15] == rb[15] && ra[16] == rb[16] && ra[17] == rb[17];
  }

  // ---------------------------------------------------------------- the API

  /** `POST /predict`: one call to `predict` on `data.dict()`; its verdict
      goes under "prediction", and any exception it raises becomes the text
      under "error". The endpoint itself never raises an `Exception`. */
  function GetPrediction(predict: Object -> Outcome, data: CustomerData): (response: Object)
    ensures predict(ApiRecord(data)).Returned? ==>
              Keys(response) == ["prediction"] &&
              Get(response, "prediction") == Some(Str(predict(ApiRecord(data)).verdict)) &&
              Get(response, "error") == None
    ensures predict(ApiRecord(data)).Raised? ==>
              Keys(response) == ["error"] &&
              Get(response, "error") == Some(Str(predict(ApiRecord(data)).message)) &&
              Get(response, "prediction") == None
  {
    match predict(ApiRecord(data))
    case Returned(result) => [("prediction", Str(result))]
    case Raised(e) => [("error", Str(e))]
  }

  /** Every response carries exactly one key, and it is either "prediction"
      or "error": never both, never neither. */
  lemma ExactlyOneKey(predict: Object -> Outcome, data: CustomerData)
    ensures |Keys(GetPrediction(predict, data))| == 1
    ensures ("prediction" in Keys(GetPrediction(predict, data))) !=
            ("error" in Keys(GetPrediction(predict, data)))
  {
  }

  /** How a client reads a response body: the verdict under "prediction", or
      the message under "error"; anything else is not a response. */
  function ReadResponse(response: Object): Option<Outcome>
  {
    if |response| == 1 && response[0].0 == "prediction" && response[0].1.Str? then
      Some(Returned(response[0].1.s))
    else if |response| == 1 && response[0].0 == "error" && response[0].1.Str? then
      Some(Raised(response[0].1.s))
    else
      None
  }

  /** The response encodes the outcome of the single `predict` call on
      `data.dict()` without loss: a client reading it recovers that outcome. */
  lemma ResponseRoundTrip(predict: Object -> Outcome, data: CustomerData)
    ensures ReadResponse(GetPrediction(predict, data)) == Some(predict(ApiRecord(data)))
  {
  }

  /** The endpoint depends on `predict` only through its outcome on this
      request's record: two scoring functions that agree there give the same
      response, whatever they do elsewhere. */
  lemma SingleDispatch(p: Object -> Outcome, q: Object -> Outcome, data: CustomerData)
    requires p(ApiRecord(data)) == q(ApiRecord(data))
    ensures GetPrediction(p, data) == GetPrediction(q, data)
  {
  }

  // ---------------------------------------------------------------- the form

  /** A numeric widget value: Gradio hands over a Python int or a float. */
  datatype Number = IntNum(i: int) | FloatNum(x: real)

  /** `int(n)`: the identity on ints; on floats, truncation toward zero. */
  function PyInt(n: Number): (k: int)
    ensures n.IntNum? ==> k == n.i
    ensures n.FloatNum? && 0.0 <= n.x ==> k as real <= n.x < k as real + 1.0
    ensures n.FloatNum? && n.x < 0.0 ==> k as real - 1.0 < n.x <= k as real
  {
    match n
    case IntNum(i) => i
    case FloatNum(x) => if 0.0 <= x then x.Floor else -((-x).Floor)
  }

  /** `float(n)`: the exact value of an int, or the float itself. Converting
      an int is lossless: `int(float(i)) == i`. */
  function PyFloat(n: Number): (x: real)
    ensures n.FloatNum? ==> x == n.x
    ensures n.IntNum? ==> PyInt(FloatNum(x)) == n.i
  {
    match n
    case IntNum(i) => i as real
    case FloatNum(x) => x
  }

  /** The 18 positional widget values, in the order the form passes them. */
  datatype FormInputs = FormInputs(
    gender: string, Partner: string, Dependents: string,
    PhoneService: string, MultipleLines: string,
    InternetService: string, OnlineSecurity: string, OnlineBackup: string,
    DeviceProtection: string, TechSupport: string, StreamingTV: string,
    StreamingMovies: string,
    Contract: string, PaperlessBilling: string, PaymentMethod: string,
    tenure: Number, MonthlyCharges: Number, TotalCharges: Number)

  /** The dict literal `gradio_interface` builds from its arguments: strings
      copied, `tenure` through `int`, the charges through `float`. */
  function FormRecord(args: FormInputs): (record: Object)
    ensures |record| == 18
    ensures forall i | 0 <= i < 15 :: record[i].1.Str?
    ensures record[15].1.Int? && record[16].1.Float? && record[17].1.Float?
  {
    [("gender", Str(args.gender)), ("Partner", Str(args.Partner)),
     ("Dependents", Str(args.Dependents)),
     ("PhoneService", Str(args.PhoneService)), ("MultipleLines", Str(args.MultipleLines)),
     ("InternetService", Str(args.InternetService)),
     ("OnlineSecurity", Str(args.OnlineSecurity)), ("OnlineBackup", Str(args.OnlineBackup)),
     ("DeviceProtection", Str(args.DeviceProtection)), ("TechSupport", Str(args.TechSupport)),
     ("StreamingTV", Str(args.StreamingTV)), ("StreamingMovies", Str(args.StreamingMovies)),
     ("Contract", Str(args.Contract)), ("PaperlessBilling", Str(args.PaperlessBilling)),
     ("PaymentMethod", Str(args.PaymentMethod)),
     ("tenure", Int(PyInt(args.tenure))),
     ("MonthlyCharges", Float(PyFloat(args.MonthlyCharges))),
     ("TotalCharges", Float(PyFloat(args.TotalCharges)))]
  }

  /** The form record has exactly the schema's keys, in the schema's order;
      each string field is the widget value unchanged, and each numeric field
      is the coerced widget value. */
  lemma FormRecordShape(args: FormInputs)
    ensures Keys(FormRecord(args)) == FieldNames
    ensures Get(FormRecord(args), "gender") == Some(Str(args.gender))
    ensures Get(FormRecord(args), "Partner") == Some(Str(args.Partner))
    ensures Get(FormRecord(args), "Dependents") == Some(Str(args.Dependents))
    ensures Get(FormRecord(args), "PhoneService") == Some(Str(args.PhoneService))
    ensures Get(FormRecord(args), "MultipleLines") == Some(Str(args.MultipleLines))
    ensures Get(FormRecord(args), "InternetService") == Some(Str(args.InternetService))
    ensures Get(FormRecord(args), "OnlineSecurity") == Some(Str(args.OnlineSecurity))
    ensures Get(FormRecord(args), "OnlineBackup") == Some(Str(args.OnlineBackup))
    ensures Get(FormRecord(args), "DeviceProtection") == Some(Str(args.DeviceProtection))
    ensures Get(FormRecord(args), "TechSupport") == Some(Str(args.TechSupport))
    ensures Get(FormRecord(args), "StreamingTV") == Some(Str(args.StreamingTV))
    ensures Get(FormRecord(args), "StreamingMovies") == Some(Str(args.StreamingMovies))
    ensures Get(FormRecord(args), "Contract") == Some(Str(args.Contract))
    ensures Get(FormRecord(args), "PaperlessBilling") == Some(Str(args.PaperlessBilling))
    ensures Get(FormRecord(args), "PaymentMethod") == Some(Str(args.PaymentMethod))
    ensures Get(FormRecord(args), "tenure") == Some(Int(PyInt(args.tenure)))
    ensures Get(FormRecord(args), "MonthlyCharges") == Some(Float(PyFloat(args.MonthlyCharges)))
    ensures Get(FormRecord(args), "TotalCharges") == Some(Float(PyFloat(args.TotalCharges)))
  {
    var d := FormRecord(args);
    KeysAre(d, FieldNames);
    FieldNamesDistinct();
    // one call per entry: the postconditions name keys, not indices, so a
    // quantified call would give the verifier no term to instantiate it with
    GetAt(d, 0);
    GetAt(d, 1);
    GetAt(d, 2);
    GetAt(d, 3);
    GetAt(d, 4);
    GetAt(d, 5);
    GetAt(d, 6);
    GetAt(d, 7);
    GetAt(d, 8);
    GetAt(d, 9);
    GetAt(d, 10);
    GetAt(d, 11);
    GetAt(d, 12);
    GetAt(d, 13);
    GetAt(d, 14);
    GetAt(d, 15);
    GetAt(d, 16);
    GetAt(d, 17);
  }

  /** The form's widget values stand for the request body `data`: the same
      strings, and numbers that coerce to the body's numbers. */
  predicate Corresponds(args: FormInputs, data: CustomerData)
  {
    && args.gender == data.gender && args.Partner == data.Partner
    && args.Dependents == data.Dependents
    && args.PhoneService == data.PhoneService && args.MultipleLines == data.MultipleLines
    && args.InternetService == data.InternetService
    && args.OnlineSecurity == data.OnlineSecurity && args.OnlineBackup == data.OnlineBackup
    && args.DeviceProtection == data.DeviceProtection && args.TechSupport == data.TechSupport
    && args.StreamingTV == data.StreamingTV && args.StreamingMovies == data.StreamingMovies
    && args.Contract == data.Contract && args.PaperlessBilling == data.PaperlessBilling
    && args.PaymentMethod == data.PaymentMethod
    && PyInt(args.tenure) == data.tenure
    && PyFloat(args.MonthlyCharges) == data.MonthlyCharges
    && PyFloat(args.TotalCharges) == data.TotalCharges
  }

  /** Parity of the two front doors: the form hands `predict` exactly the
      dict the API hands it, key for key and in the same order, if and only if
      the widget values stand for the same request body. */
  lemma RecordParity(args: FormInputs, data: CustomerData)
    ensures FormRecord(args) == ApiRecord(data) <==> Corresponds(args, data)
  {
    if FormRecord(args) == ApiRecord(data) {
      var f, a := FormRecord(args), ApiRecord(data);
      assert f[0] == a[0] && f[1] == a[1] && f[2] == a[2];
      assert f[3] == a[3] && f[4] == a[4] && f[5] == a[5];
      assert f[6] == a[6] && f[7] == a[7] && f[8] == a[8];
      assert f[9] == a[9] && f[10] == a[10] && f[11] == a[11];
      assert f[12] == a[12] && f[13] == a[13] && f[14] == a[14];
      assert f[15] == a[15] && f[16] == a[16] && f[17] == a[17];
    }
  }

  /** The widget values that present a request body: integer tenure, float charges. */
  function InputsFor(data: CustomerData): FormInputs
  {
    FormInputs(
      data.gender, data.Partner, data.Dependents,
      data.PhoneService, data.MultipleLines,
      data.InternetService, data.OnlineSecurity, data.OnlineBackup,
      data.DeviceProtection, data.TechSupport, data.StreamingTV,
      data.StreamingMovies,
      data.Contract, data.PaperlessBilling, data.PaymentMethod,
      IntNum(data.tenure), FloatNum(data.MonthlyCharges), FloatNum(data.TotalCharges))
  }

  /** With an integer tenure, `int(tenure)` changes nothing, so the form built
      from a body's own values hands `predict` the API's dict. */
  lemma IntegerTenureParity(data: CustomerData)
    ensures FormRecord(InputsFor(data)) == ApiRecord(data)
  {
    RecordParity(InputsFor(data), data);
  }

  /** The request body that a set of widget values stands for: the strings as
      they are, the numbers as `int` and `float` coerce them. */
  function CoercedBody(args: FormInputs): CustomerData
  {
    CustomerData(
      args.gender, args.Partner, args.Dependents,
      args.PhoneService, args.MultipleLines,
      args.InternetService, args.OnlineSecurity, args.OnlineBackup,
      args.DeviceProtection, args.TechSupport, args.StreamingTV,
      args.StreamingMovies,
      args.Contract, args.PaperlessBilling, args.PaymentMethod,
      PyInt(args.tenure), PyFloat(args.MonthlyCharges), PyFloat(args.TotalCharges))
  }

  /** Every form input stands for the body built from its coerced values, so
      the form path always hands `predict` a dict the API could also have
      built. */
  lemma FormRecordIsApiRecord(args: FormInputs)
    ensures FormRecord(args) == ApiRecord(CoercedBody(args))
  {
    RecordParity(args, CoercedBody(args));
  }

  /** A slider that delivers a whole number as a float (`3.0`) still gives the
      integer tenure: truncation of a whole float is exact. */
  lemma WholeFloatTenure(n: int)
    ensures PyInt(FloatNum(n as real)) == n
  {
  }

  /** `gradio_interface`: one call to the same `predict` on the form record,
      returning `str(result)` (a verdict string is its own `str`). There is no
      `try`: an exception raised by `predict` propagates to the caller. */
  function GradioInterface(predict: Object -> Outcome, args: FormInputs): (outcome: Outcome)
    ensures ReadResponse(GetPrediction(predict, CoercedBody(args))) == Some(outcome)
  {
    FormRecordIsApiRecord(args);
    match predict(FormRecord(args))
    case Returned(result) => Returned(result)
    case Raised(e) => Raised(e)
  }

  /** `predict_with_styling`: the form's verdict in its risk wrapper; an
      exception from the form path passes through unstyled. */
  function PredictWithStyling(predict: Object -> Outcome, args: FormInputs): (shown: Outcome)
    ensures GradioInterface(predict, args).Returned? ==>
              shown.Returned? &&
              Unstyle(shown.verdict) == Some((HighRisk(GradioInterface(predict, args).verdict),
                                              GradioInterface(predict, args).verdict))
    ensures GradioInterface(predict, args).Raised? ==> shown == GradioInterface(predict, args)
  {
    match GradioInterface(predict, args)
    case Returned(result) =>
      StyleRoundTrip(result);
      Returned(Style(result))
    case Raised(e) => Raised(e)
  }

  /** End to end, for widget values that stand for the request body: the API
      answers `{"prediction": v}` exactly when the form shows `v` in its
      wrapper, and `{"error": m}` exactly when the form path raises with `m`. */
  lemma FrontDoorParity(predict: Object -> Outcome, args: FormInputs, data: CustomerData)
    requires Corresponds(args, data)
    ensures ReadResponse(GetPrediction(predict, data)) == Some(GradioInterface(predict, args))
    ensures forall v :: GetPrediction(predict, data) == [("prediction", Str(v))] <==>
                        PredictWithStyling(predict, args) == Returned(Style(v))
    ensures forall m :: GetPrediction(predict, data) == [("error", Str(m))] <==>
                        PredictWithStyling(predict, args) == Raised(m)
  {
    RecordParity(args, data);
    forall v ensures GetPrediction(predict, data) == [("prediction", Str(v))] <==>
                     PredictWithStyling(predict, args) == Returned(Style(v))
    {
      if PredictWithStyling(predict, args) == Returned(Style(v)) {
        StyleRoundTrip(v);
        StyleRoundTrip(GradioInterface(predict, args).verdict);
      }
    }
  }

  // ---------------------------------------------------------------- domains

  /** The option lists of the form's dropdowns. */
  const GenderOptions: seq<string> := ["Male", "Female"]
  const YesNoOptions: seq<string> := ["Yes", "No"]
  const MultipleLinesOptions: seq<string> := ["Yes", "No", "No phone service"]
  const InternetServiceOptions: seq<string> := ["DSL", "Fiber optic", "No"]
  const AddOnOptions: seq<string> := ["Yes", "No", "No internet service"]
  const ContractOptions: seq<string> := ["Month-to-month", "One year", "Two year"]
  const PaymentMethodOptions: seq<string> := [
    "Electronic check", "Mailed check",
    "Bank transfer (automatic)", "Credit card (automatic)"]

  /** Every categorical field holds one of its dropdown's options. Neither
      front door checks this: the API schema types these fields as plain
      strings, and the form passes widget values through. */
  predicate WellFormed(data: CustomerData)
  {
    && data.gender in GenderOptions
    && data.Partner in YesNoOptions && data.Dependents in YesNoOptions
    && data.PhoneService in YesNoOptions && data.MultipleLines in MultipleLinesOptions
    && data.InternetService in InternetServiceOptions
    && data.OnlineSecurity in AddOnOptions && data.OnlineBackup in AddOnOptions
    && data.DeviceProtection in AddOnOptions && data.TechSupport in AddOnOptions
    && data.StreamingTV in AddOnOptions && data.StreamingMovies in AddOnOptions
    && data.Contract in ContractOptions && data.PaperlessBilling in YesNoOptions
    && data.PaymentMethod in PaymentMethodOptions
  }

  /** The dropdown of each categorical field, in schema order. */
  const Dropdowns: seq<seq<string>> := [
    GenderOptions, YesNoOptions, YesNoOptions,
    YesNoOptions, MultipleLinesOptions,
    InternetServiceOptions, AddOnOptions, AddOnOptions,
    AddOnOptions, AddOnOptions, AddOnOptions, AddOnOptions,
    ContractOptions, YesNoOptions, PaymentMethodOptions]

  /** Read over the record `predict` receives: a body is well formed exactly
      when each of the 15 string entries of `data.dict()` is an option of the
      dropdown that sets that field on the form. */
  lemma WellFormedByField(data: CustomerData)
    ensures WellFormed(data) <==>
              forall i | 0 <= i < 15 :: ApiRecord(data)[i].1.s in Dropdowns[i]
  {
    var d := ApiRecord(data);
    if forall i | 0 <= i < 15 :: d[i].1.s in Dropdowns[i] {
      assert d[0].1.s in Dropdowns[0] && d[1].1.s in Dropdowns[1] && d[2].1.s in Dropdowns[2];
      assert d[3].1.s in Dropdowns[3] && d[4].1.s in Dropdowns[4] && d[5].1.s in Dropdowns[5];
      assert d[6].1.s in Dropdowns[6] && d[7].1.s in Dropdowns[7] && d[8].1.s in Dropdowns[8];
      assert d[9].1.s in Dropdowns[9] && d[10].1.s in Dropdowns[10] && d[11].1.s in Dropdowns[11];
      assert d[12].1.s in Dropdowns[12] && d[13].1.s in Dropdowns[13] && d[14].1.s in Dropdowns[14];
    }
  }

  /** The three example customers offered on the form. */
  const ExampleInputs: seq<FormInputs> := [
    FormInputs("Female", "No", "No", "Yes", "No", "Fiber optic", "No", "No", "No",
               "No", "Yes", "Yes", "Month-to-month", "Yes", "Electronic check",
               IntNum(1), FloatNum(85.0), FloatNum(85.0)),
    FormInputs("Male", "Yes", "Yes", "Yes", "Yes", "DSL", "Yes", "Yes", "Yes",
               "Yes", "No", "No", "Two year", "No", "Credit card (automatic)",
               IntNum(60), FloatNum(45.0), FloatNum(2700.0)),
    FormInputs("Female", "Yes", "No", "Yes", "No", "Fiber optic", "Yes", "Yes", "No",
               "Yes", "Yes", "No", "One year", "Yes", "Bank transfer (automatic)",
               IntNum(24), FloatNum(70.0), FloatNum(1680.0))]

  /** The example customers lie within the dropdown options. */
  lemma ExamplesWellFormed(k: nat)
    requires k < |ExampleInputs|
    ensures WellFormed(CoercedBody(ExampleInputs[k]))
  {
  }
}
