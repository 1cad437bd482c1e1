# Telco churn prediction service: a verified model of its serving contract

The service puts one external scoring function, `predict`, behind two front
doors. The first is a JSON endpoint, `POST /predict`, whose body is an
18-field `CustomerData` record. The second is an interactive form whose 18
widgets feed `gradio_interface`. There is also a liveness endpoint, `GET /`.
This project models the contract layer around `predict` in Dafny:

- `Dicts`: the Python values (`str`, `int`, `float`) and insertion-ordered
  dicts that the layer builds, with `d.get(k)` lookup.
- `Text`: Python's case-sensitive substring test `pat in s`, together with an
  independent "occurs at some index" definition.
- `Styling`: the form's verdict styler (`predict_with_styling`). It uses two
  fixed HTML wrappers and reads a styled verdict back.
- `ChurnApp`: `root`, the `CustomerData` record and its `data.dict()`,
  `get_prediction`, `gradio_interface`, `predict_with_styling`, and the
  dropdown option lists.

`predict` is never defined. Each operation that calls it takes it as a
parameter: a total function from the record dict to an `Outcome`. An
`Outcome` is either `Returned(verdict)` or `Raised(message)`, where `message`
is the `str(e)` of an `Exception`. Each proved property holds for every
scoring function of that kind. Being a function, `predict` is assumed to be
deterministic and terminating: the same dict always gives the same outcome.
`FrontDoorParity` and `SingleDispatch` relate separate calls under that
assumption.

The main results:

- The API response always has exactly one key. That key is `prediction` when
  `predict` returns and `error` when it raises an `Exception`, and the
  endpoint itself never raises an `Exception`.
- The form and the API hand `predict` the same dict, with the same keys in the
  same order. This holds exactly when the widget values match the request
  body. End to end, the API answers `{"prediction": v}` exactly when the form
  shows `v` in its wrapper, and `{"error": m}` exactly when the form raises
  with `m`.
- Styling is lossless. Unwrapping a styled verdict gives back the verdict text
  unchanged.
- The risk test is case-sensitive. The two verdicts the endpoint documents,
  "Likely to churn" and "Not likely to churn", both get the low-risk wrapper.

Three points where the code is weaker than one might expect (the model follows
the code):

- The API enforces no enumerated domains. `CustomerData` types every
  categorical field as a plain `str`. The domains appear only as the form's
  dropdown option lists. `WellFormed` states them, and nothing in the model
  requires them.
- The error text is `str(e)`, which is empty for an exception raised without
  a message. The model does not promise a non-empty error string.
- The health probe is not independent of the model's load state. `root`
  makes no call to `predict`, so nothing `predict` returns or raises changes
  its answer. But `predict` is imported at module level with no guard
  (src/app/main.py:17). If that import fails, for example because a model
  artifact loaded at import time is missing, the app never starts and `GET /`
  never answers.

## Model

| member | source | states |
|---|---|---|
| `ChurnApp.Root` | src/app/main.py:28-33 | the health answer has the single key "status" with value "ok"; it makes no call to `predict`, so nothing `predict` returns or raises affects the answer |
| `ChurnApp.FieldNamesDistinct` | src/app/main.py:45-70 | the schema declares 18 fields with pairwise distinct names |
| `ChurnApp.ApiRecordShape` | src/app/main.py:45-70 | `data.dict()` has exactly the schema's 18 keys in declaration order, and each key looks up its own field of the body |
| `ChurnApp.ApiRecord` | src/app/main.py:45-70 | `data.dict()` has 18 entries: the 15 categorical fields as strings, then `tenure` as an int and the two charges as floats, as the schema types them |
| `ChurnApp.ApiRecordInjective` | src/app/main.py:89 | different request bodies give different record dicts, so `predict` sees the whole request |
| `ChurnApp.GetPrediction` | src/app/main.py:73-93 | if `predict` returns `r`, the response's only key is "prediction" with value `r` and there is no "error"; if it raises an `Exception`, the only key is "error" with the message and there is no "prediction" |
| `ChurnApp.ExactlyOneKey` | src/app/main.py:87-93 | every response has exactly one key: either "prediction" or "error", never both and never neither |
| `ChurnApp.ResponseRoundTrip` | src/app/main.py:83-93 | a client reading any response recovers exactly the outcome of the single `predict` call on `data.dict()` |
| `ChurnApp.SingleDispatch` | src/app/main.py:87-90 | the response depends on `predict` only through its outcome on this request's record |
| `ChurnApp.PyInt` | src/app/main.py:133 | `int(tenure)` is the identity on ints; on floats it truncates toward zero (within 1, on the side of zero) |
| `ChurnApp.PyFloat` | src/app/main.py:134-135 | `float()` leaves a float unchanged and converts an int without loss (`int(float(i)) == i`) |
| `ChurnApp.WholeFloatTenure` | src/app/main.py:133 | a whole number delivered as a float becomes that integer |
| `ChurnApp.FormRecord` | src/app/main.py:117-136 | the form's dict literal has 18 entries: 15 strings, then an int and two floats, the types that `int()` and `float()` force |
| `ChurnApp.FormRecordShape` | src/app/main.py:117-136 | the form's dict has exactly the schema's 18 keys in schema order; the 15 string fields are the widget values unchanged; the numbers are the coerced widget values |
| `ChurnApp.RecordParity` | src/app/main.py:117-136 | the form's dict equals the API's `data.dict()` if and only if the widget values match the body (same strings, numbers that coerce to the body's numbers) |
| `ChurnApp.IntegerTenureParity` | src/app/main.py:133-135 | with integer tenure and float charges, the form's dict equals the API's dict for the same field values |
| `ChurnApp.FormRecordIsApiRecord` | src/app/main.py:117-139 | every dict the form hands `predict` is one the API would also hand it for some body |
| `ChurnApp.GradioInterface` | src/app/main.py:100-140 | the form path's outcome is exactly what the API would report for the body that the coerced widget values stand for; with no `try`, an exception from `predict` comes out as the same exception |
| `ChurnApp.FrontDoorParity` | src/app/main.py:138-140 | for matching inputs, the API's decoded response equals the form path's outcome; the API gives `{"prediction": v}` if and only if the form shows `v` styled, and `{"error": m}` if and only if the form raises `m` |
| `ChurnApp.PredictWithStyling` | src/app/main.py:217-225 | a returned verdict is shown in a wrapper whose risk flag is the marker test and whose text is the verdict exactly; an exception passes through unchanged |
| `ChurnApp.WellFormedByField` | src/app/main.py:172-199 | a body is within the dropdown domains if and only if each of the 15 string entries of `data.dict()` is an option of that field's dropdown |
| `ChurnApp.ExamplesWellFormed` | src/app/main.py:255-265 | the three example customers lie within the dropdown option lists |
| `Styling.HighRisk` | src/app/main.py:222 | the risk test holds if and only if "Will CHURN" or "High Risk" occurs, case-sensitively, at some index of the verdict |
| `Styling.Style` | src/app/main.py:222-225 | the styled verdict ends in `</div>`, starts with exactly one of the two wrapper prefixes, and is as long as the verdict plus the chosen prefix and the suffix |
| `Styling.StyleRoundTrip` | src/app/main.py:222-225 | unwrapping the styled verdict gives back the risk flag and the verdict text unchanged |
| `Styling.StyleChoice` | src/app/main.py:222-225 | the high-risk wrapper is chosen if and only if "Will CHURN" or "High Risk" occurs at some index of the verdict; otherwise the low-risk wrapper is chosen |
| `Styling.MarkerStyledHigh` | src/app/main.py:222-223 | a verdict with a marker anywhere in it is the high-risk prefix, then the verdict, then `</div>` |
| `Styling.DocumentedVerdictsStyledLow` | src/app/main.py:222-225 | "Likely to churn" and "Not likely to churn" both get the low-risk wrapper (the test is case-sensitive) |
| `Styling.NoMarker` | src/app/main.py:222 | a verdict with neither a 'W' nor an 'H' is not high risk |
| `Text.Contains` | src/app/main.py:222 | as in Python, the empty pattern is in every string and a prefix is contained; a contained pattern is no longer than the string |
| `Text.ContainsIff` | src/app/main.py:222 | the substring scan holds if and only if the pattern occurs at some index |
| `Text.ContainsFirstChar` | src/app/main.py:222 | a string containing a non-empty pattern contains the pattern's first character |
| `Text.ContainsInfix` | src/app/main.py:222 | a pattern is contained in any string built around it |

## Left out

- `predict` (src/serving/inference) is not part of this model. It is a
  parameter: a deterministic, terminating function, with nothing else
  assumed about it.
- Verdicts are strings, so `str(result)` is the identity. A `predict` that
  returns another Python type is not modelled.
- Pydantic parsing of the JSON body (type checks, int-to-float coercion, the
  422 validation response), FastAPI routing, and HTTP status codes are library
  behaviour. They are not modelled. `GetPrediction` starts from a parsed
  `CustomerData`.
- Floats are exact reals. IEEE rounding, NaN and infinity, and the
  `OverflowError` of `float()` on huge ints are not modelled.
- Widget values are modelled as Python ints or floats. A widget that delivers
  a string (so that `int()` or `float()` parses it or raises) is not modelled.
  Neither is a dropdown cleared to `None`.
- Root: the module-level import of `predict` (src/app/main.py:17), and any
  failure at import time that keeps the app from starting, are not modelled.
  `Root` promises its answer only once the app is running.
- The text of `str(e)` is any string. The exception's class is not modelled.
- GetPrediction: `Raised` stands only for subclasses of `Exception`, which the
  `except Exception` clause catches. An exception outside `Exception`
  (`SystemExit`, `KeyboardInterrupt`) would leave `get_prediction` uncaught;
  this is not modelled, so "never raises" is promised only for `Exception`.
- `predict` is modelled as a deterministic, terminating function. A scoring
  function whose outcome changes between calls on the same dict (for example
  a model loaded lazily, failing first and succeeding later) is not modelled.
  For such a function the front doors can disagree, and `FrontDoorParity` and
  `SingleDispatch` do not apply to it.
- The Gradio layout, CSS, tabs, markdown, clear button and the mount at
  `/ui` are UI wiring with no logic (src/app/main.py:142-318, apart from the
  styler, the dropdown option lists and the example rows).
- The slider and number ranges (tenure 0-100, charges 0-200, total at least 0)
  are widget bounds that no code path checks. `WellFormed` covers only the
  dropdown domains.
- Concurrency between requests is not modelled, because there is no shared
  state.
- A `predict` that blocks forever has no timeout in the code, and the model
  does not capture non-termination.
