# CPU state monitor: a Dafny model of its deterministic core

The monitor reads one text line at a time from an Arduino-style device. A line
looks like `Temperature: 72.5 C | Voltage: 3.3 V | ...`. The monitor parses it
into a reading of five sensors: temperature, voltage, current, CPU usage and
fan speed. It grades each value against a static threshold table. It then sends
a ten-value feature vector as CSV to a hosted classifier and reads back three
class probabilities (Normal, Warning, Critical). The first largest probability
names the predicted class. The interactive session keeps a history of
predictions and a history of inference latencies.

Besides the monitor, the repository holds:

- a failure-prediction model that is served two ways: hosted request and
  response handlers, and a stand-alone HTTP route;
- a generator of synthetic training data, which labels every sampled row with
  five warning flags and a three-level CPU state.

The model is split into these modules:

- `Wrappers`: `Option` and `Result`.
- `Text`: the Python string operations the parsers rely on. These are
  `str.strip` over the full `str.isspace` set, `str.lower`, substring `in`,
  `split(sep)`, `sep.join` and `split()[0]`.
- `Decimal`: `str` of an int and its reader.
- `Sensors`: `get_sensor_state` and its threshold table.
- `LineParser`: the parsing loop of `read_sensor_data`. The line is cut into
  fragments, and each fragment yields one outcome. A method then fills the
  reading from those outcomes in a loop, proved equal to a left fold.
- `Prediction`: the feature vector, the CSV request body, the parse of the
  response and the first-maximum class choice.
- `AppSession`: the session as a class whose fields are the history, the
  latency history, the port handle and the connection flag. Its methods are
  `connect_arduino`, `disconnect_arduino`, `read_sensor_data`,
  `get_prediction` and the "Read Sensor Data and Predict" action.
- `FailureInference`: `input_fn`, `predict_fn` and `output_fn`.
- `FailureApi`: the `POST /predict` route, plus a lemma comparing its encoder
  with the hosted one.
- `SyntheticData`: the correlation adjustments applied in place to an array
  of rows, the warning labels and the `cpu_state` column. The state column is
  built as the source does it: a zero fill, then two masked assignments.

The model abstracts foreign code and I/O as parameters:

- `float(s)` is `toFloat: string -> Option<real>`, where None means
  ValueError.
- `str(x)` of a float is `floatText: real -> string`.
- `json.loads` is `loads: string -> Option<Json>`.
- `model.predict` is a function returning `Option<seq<real>>`, where None
  means it raised.
- Opening and closing the serial port are the booleans `opens` and `closes`.
- The decoded line and the endpoint's answer are `Option<string>`, where None
  means the call raised.
- Latency, timestamps and the selected network tag are plain inputs.

Behaviour of the code that is easy to misread, and that the model keeps:

- `get_prediction` does not check that the answer holds exactly three probabilities.
  - An answer with more than three numbers is accepted when its first largest
    value is among the first three.
  - An answer with one or two numbers still names a class, so a latency record
    is appended before the missing third probability makes the call return
    None.
  - Among all-numeric answers, only when the first largest value lies beyond
    the third position does the call fail before anything is recorded.
- `connect_arduino` returns None, not True, when a port is already held.
  `Connect` returns false in that case and changes nothing.
- The hosted `input_fn` maps an unknown machine type to 1 ("M"). The route
  `predict` refuses it with an error body. `EncodersAgree` states exactly
  where the two agree and where they part.

## Model

| member | source | states |
|---|---|---|
| Text.Trim | app.py:66 | `strip()` leaves no whitespace at either end and never lengthens the text |
| Text.TrimIsSlice | app.py:66 | the stripped text is the original with a run of whitespace removed from each end, and nothing else changed |
| Text.TrimIdempotent | app.py:66 | a property of `Trim` alone, not of a call in the program: stripping a stripped text changes nothing |
| Text.Lower | app.py:75 | `lower()` keeps the length, maps each character through the case map and leaves no ASCII capital |
| Text.Contains | app.py:80-89 | Python's `sub in s`; its partner `ContainsOccurs` states that it holds exactly when `sub` occurs at some position |
| Text.ContainsOccurs | app.py:80-89 | `pat in s` holds exactly when `pat` occurs at some position of `s` |
| Text.ContainsPrefixOfPattern | app.py:86-88 | a text containing `p + q` contains `p` |
| Text.IndexOf | app.py:70 | the separator search of `split` returns the first position where the separator occurs, or None exactly when it occurs nowhere |
| Text.FindChar | app.py:73-74 | the position of the first `:` in a fragment, or None exactly when there is no `:` |
| Text.SplitOn | app.py:70 | `split(sep)` always yields at least one piece |
| Text.SplitPiecesAvoidSeparator | app.py:70 | no piece produced by `split(sep)` contains the separator |
| Text.Join | app.py:137 | `sep.join(parts)`; its partners `JoinSplit` and `SplitJoin` state that it inverts `split` |
| Text.JoinSplit | app.py:70 | joining the pieces of `split(sep)` with `sep` gives back the original text |
| Text.SplitJoin | app.py:137 | splitting a join of separator-free parts on the separator gives back exactly those parts |
| Text.TakeWord | app.py:77 | the leading run of non-space characters, ending at a space or at the end |
| Text.FirstWord | app.py:77 | `split()[0]` is None (IndexError) exactly when the value is all whitespace; otherwise a non-empty space-free word preceded only by whitespace |
| Decimal.IntText | app.py:137 | `str(i)` of an int is non-empty, all digits except a leading '-' exactly for negative values; `IntTextRoundTrip` reads it back |
| Decimal.NatText | app.py:137 | `str(n)` for n >= 0: at least one character, all digits, no leading zero; `NatTextValue` reads it back |
| Decimal.NatTextValue | app.py:137 | the digits `str` writes for a natural number read back as that number |
| Decimal.IntTextRoundTrip | app.py:137 | `int(str(i)) == i` for every integer, negative ones included |
| Sensors.SensorState | app.py:101-117 | the grade is 0, 1 or 2, and it is 0 exactly when the value lies in the closed normal interval |
| Sensors.SensorStateIsBand | app.py:101-117 | the table grades every value as an explicit partition of the reals: shared boundaries go to Normal, values beyond both bands on either side are Critical |
| Sensors.SensorStateMonotone | app.py:103-108 | except for voltage, a larger value at or above the normal floor never grades lower |
| Sensors.VoltageStateAntitone | app.py:105 | for voltage up to 3.6, a larger value never grades higher |
| Sensors.BoundaryExamples | app.py:104-108 | grades at the boundary values: voltage 3.0 and 3.6, temperature 70, fan 2500 are Normal; temperature below 0 is Critical |
| LineParser.Complete | app.py:214 | the guard that all five sensor keys are present; its partner `CompleteMeansAllSensors` states it is membership of every sensor |
| LineParser.CompleteMeansAllSensors | app.py:214 | a reading is complete exactly when all five sensors are present |
| LineParser.CpuUsageNeedsCpu | app.py:86 | the "cpu usage" alternative is subsumed by "cpu" |
| LineParser.FanSpeedNeedsFan | app.py:88 | the "fan speed" alternative is subsumed by "fan" |
| LineParser.SlotFor | app.py:80-89 | the slot a label fills always has its keyword in the label; `SlotForFirstMatch` states the first-match order |
| LineParser.SlotForFirstMatch | app.py:80-89 | a label fills the first sensor in the order temperature, voltage, current, cpu, fan whose keyword it contains, and no slot exactly when it contains none |
| LineParser.CpuTemperatureIsTemperature | app.py:80 | "cpu temperature" fills the temperature slot |
| LineParser.Fragment | app.py:73-74 | a fragment is ignored exactly when it has no `:`; otherwise it is cut at its first `:` (the label holds no `:`) and the two sides go to `Field` |
| LineParser.Field | app.py:75-91 | each outcome is pinned to its cause: it raises exactly when the value is all whitespace; it is skipped as not a number exactly when the first word fails `float`; it is unmatched exactly when the number is read but the stripped lower-cased label has no slot; otherwise it assigns that slot the `float` of the first word |
| LineParser.Fold | app.py:72-93 | the reading built left to right from the outcomes; its partners `FoldFailsIff`, `FoldKeys`, `LastAssignmentWins` and `SkippedFragmentHarmless` state when it fails, which keys it holds and which value wins |
| LineParser.ParseLine | app.py:66-93 | the reading built from a line equals the fold of its fragments' outcomes, after stripping the line and splitting it on " \| " |
| LineParser.FillReading | app.py:72-91 | the in-place fill of the reading equals the left fold of the outcomes, stopping with None at the first IndexError |
| LineParser.FoldStep | app.py:72-91 | folding one more fragment either keeps a failure or absorbs that fragment into the reading |
| LineParser.FailureIsFinal | app.py:76-99 | once a fragment has raised IndexError no later fragment can rescue the read |
| LineParser.FoldFailsIff | app.py:76-99 | the read fails exactly when some fragment has a `:` and nothing but whitespace after it |
| LineParser.FoldKeys | app.py:80-89 | a sensor is in a successful reading exactly when some fragment assigns it |
| LineParser.LastAssignmentWins | app.py:80-89 | a sensor's value is the one carried by the last fragment that assigns it |
| LineParser.SkippedFragmentHarmless | app.py:73-91 | a fragment with no `:`, a non-numeric value or an unknown label leaves the result as if it were absent |
| Prediction.FeatureVector | app.py:123-134 | ten features: the five raw values in sensor order, then the five grades of the same sensors in the same order |
| Prediction.FeatureTexts | app.py:137 | one text per feature, each the `str` of that feature |
| Prediction.RequestBody | app.py:137 | the comma-joined texts of the feature vector; its partner `RequestBodyRoundTrip` states that it splits back into the ten features |
| Prediction.RequestBodyRoundTrip | app.py:123-137 | assuming `float` reads back what `str` wrote for the five values of the reading, the CSV body splits on commas into exactly ten fields; the first five read back as the raw values and the last five as the grades |
| Prediction.TextsReadBack | app.py:137 | when `float` reads back the text of each raw value present, each feature's text reads back as the feature: raw values through `float`, grades through `int` |
| Prediction.BodySplitsIntoTexts | app.py:137 | splitting the joined body on commas returns the feature texts |
| Prediction.FeatureTextCommaFree | app.py:137 | no feature text contains a comma |
| Prediction.ParseNumbers | app.py:154 | None exactly when some piece is not a number; otherwise one number per piece, each the `float` of its piece |
| Prediction.Probabilities | app.py:153-154 | a parsed answer holds at least one number |
| Prediction.Max | app.py:162 | `max` is an element no smaller than any element |
| Prediction.IndexOfValue | app.py:162 | `index(x)` is the first position holding x |
| Prediction.ArgMax | app.py:162 | `ps.index(max(ps))`; its partner `ArgMaxIsFirstMaximum` states that it is the first position of a largest value |
| Prediction.ArgMaxIsFirstMaximum | app.py:162-172 | the chosen index holds a largest value and every earlier value is strictly smaller, so ties go to the earlier class |
| Prediction.ArgMaxTie | app.py:162 | a tie between Normal and Warning goes to Normal |
| AppSession.ShortAnswerRecordsLatencyOnly | app.py:154-172 | an answer with one or two numbers names a class, so a latency record is written, but it cannot give a result |
| AppSession.NonNumericAnswerRecordsNothing | app.py:154 | an answer with a non-numeric field records nothing |
| AppSession.LongAnswers | app.py:154-172 | an answer with four numbers is accepted when its maximum is first and refused when its maximum is fourth |
| AppSession.CycleEntry | app.py:214-227 | the history entry of one cycle: present only for a non-empty complete reading whose answer names a class and holds three probabilities; `ReadAndPredict` and `CycleRecordsAgree` state its effect |
| AppSession.CycleLatency | app.py:154-163 | the latency records of one cycle: one, naming the first-maximum class, exactly when a complete reading gets an answer that names a class; `CycleRecordsAgree` relates it to `CycleEntry` |
| AppSession.CycleRecordsAgree | app.py:214-227 | a cycle appends at most one latency record; a cycle that stores a history entry appends exactly one, with the same class; a cycle with no latency record stores nothing |
| AppSession.Session.constructor | app.py:12-19 | a new session has empty histories, no port and the flag off |
| AppSession.Session.Connect | app.py:34-45 | with a port already held nothing changes and the result is false; otherwise the port is held exactly when opening succeeded, and the result says so; the flag always matches the port |
| AppSession.Session.Disconnect | app.py:47-56 | a held port that closes is dropped and the flag cleared; otherwise nothing changes |
| AppSession.Session.ReadSensorData | app.py:58-99 | the result is the parse of the line when the port is (or becomes) open and the line was read; any failure leaves no port and the flag off; success keeps the port held |
| AppSession.Session.GetPrediction | app.py:119-177 | one latency record naming the first-maximum class is appended exactly when a class is named; a result exists exactly when in addition there are at least three probabilities, and it carries the CSV body, the first three probabilities, that same class and the latency |
| AppSession.Session.PredictAndStore | app.py:214-227 | the stored entry is the cycle's entry; history grows by exactly that entry and the latency history by exactly the cycle's records |
| AppSession.Session.ReadAndPredict | app.py:210-227 | a read followed by a prediction: history grows by one entry only for a non-empty complete reading that got a result, and the latency history by exactly the cycle's records; a failed read leaves no port and the flag off, a successful one keeps the held port or holds the newly opened one |
| FailureInference.TypeCodeOrDefault | inference.py:22-23 | a list or object type cannot be looked up; every other type encodes to 0, 1 or 2; `TypeEncoding` gives the exact table |
| FailureInference.InputFn | inference.py:16-36 | a non-JSON content type fails with that type; a success is one row of six values; `InputFnContract` states when it succeeds and what the row holds |
| FailureInference.FirstMissing | inference.py:26-33 | the first feature key the request lacks, None exactly when none is missing |
| FailureInference.InputFnContract | inference.py:16-36 | non-JSON content types fail with that type; before `np.array` builds the matrix, success exactly for a JSON object with a hashable "type" and all five features; the result is one row of six values, the features in order and then the encoded type |
| FailureInference.TypeEncoding | inference.py:22-23 | "L", "M" and "H" encode as 0, 1 and 2; any other string, number, boolean or null encodes as 1 |
| FailureInference.Truncate | inference.py:42 | `int(x)` of a float truncates toward zero, for both signs |
| FailureInference.PredictFn | inference.py:39-42 | success exactly when the model returns a non-empty prediction, whose first value is truncated |
| FailureInference.OutputFn | inference.py:45-50 | success exactly for JSON, and then the text is the `failure_prediction` object; any other type fails with that type |
| FailureInference.OutputRoundTrip | inference.py:45-50 | only JSON is produced; the JSON text reads back as exactly the prediction |
| FailureApi.InputRow | backend_api.py:18-30 | a row exists exactly when the type is L, M or H; it holds the five fields in order and then the type code |
| FailureApi.Predict | backend_api.py:20-34 | a prediction exactly when the type is known and the model returns a value, that value truncated; an unknown type is answered with an error and never a prediction |
| FailureApi.AsJson | backend_api.py:10-16 | a validated request is a well-formed JSON request for the hosted handler |
| FailureApi.EncodersAgree | backend_api.py:18-30 | for the same request the hosted handler always builds a row; it equals the route's row when the type is known, and has type code 1 where the route refuses the type |
| SyntheticData.Correlated | generate_synthetic_data.py:31-32 | fan speed gains ten times the temperature, current gains 0.05 times the CPU usage, the other columns are unchanged |
| SyntheticData.AddCorrelations | generate_synthetic_data.py:31-32 | every row of the frame is replaced by its adjusted row |
| SyntheticData.Flag | generate_synthetic_data.py:35-39 | a 0/1 flag that is 1 exactly when the condition holds |
| SyntheticData.LabelsOf | generate_synthetic_data.py:35-39 | the five 0/1 labels of a row; its partner `LabelThresholds` states each one's strict threshold |
| SyntheticData.LabelThresholds | generate_synthetic_data.py:35-39 | each label is raised exactly when its sensor crosses its bound, strictly; at most five are raised |
| SyntheticData.BoundaryValuesRaiseNothing | generate_synthetic_data.py:35-39 | rows sitting exactly on the bounds (85, 10 or 14, 13, 90, 1500) raise no label |
| SyntheticData.CpuState | generate_synthetic_data.py:42-46 | the state is 0, 1 or 2: 0 exactly with no label raised, 1 exactly with one, 2 exactly with two or more |
| SyntheticData.CpuStateMonotone | generate_synthetic_data.py:43-46 | more raised labels never lower the state |
| SyntheticData.LabelsSeeAdjustedValues | generate_synthetic_data.py:31-39 | labels are computed on adjusted values: a row flagged for its sampled fan speed is not flagged once adjusted |
| SyntheticData.CpuStates | generate_synthetic_data.py:42-46 | the state column after the zero fill and the two masked passes holds the state of each row's warning count |
| SyntheticData.WarningCount | generate_synthetic_data.py:43-44 | the row sum of the five label columns; `LabelThresholds` bounds it by 5 and `CpuState` maps it to the state |
| SyntheticData.CountWarnings | generate_synthetic_data.py:43-44 | one warning count per row, each the number of labels that row raises |
| SyntheticData.LabelRows | generate_synthetic_data.py:35-46 | one labelled row per row: its values, its labels and its state |
| SyntheticData.GenerateLabels | generate_synthetic_data.py:31-46 | the frame is adjusted in place and every row yields exactly one labelled row, labelled from the adjusted values |

## Left out

- Serial I/O, the SageMaker call, `time.time()` and `datetime.now()`. These become inputs: the booleans `opens` and `closes`, the optional decoded line, the optional answer body, the latency and the timestamps. Byte decoding is not modelled.
- `float()` parsing and `str()` of floats are abstract parameters. The round trip of the request body assumes that `float` reads back what `str` wrote for the five values of the reading, and that `str` never writes a comma. NaN, infinities and the exceptions `int()` raises on them are not modelled.
- Text.Lower: lower-cases ASCII only. Python's full Unicode case mapping is not modelled, because it depends on the Unicode database.
- The text of error messages (`str(e)`, `st.error`, `st.success`) and all Streamlit, Plotly and pandas UI in `app.py` (tabs, charts, filters, CSV export, latency statistics).
- `json.loads` and `json.dumps` are not implemented. Decoding is the abstract `loads`. Encoding is written out for the single shape `output_fn` produces.
- Pydantic validation of the route's request: `SensorData` arrives with its field types already checked.
- `model_fn`, `joblib.load` and `model.predict`, which is an abstract function. Numpy arrays are sequences.
- FailureInference.InputFnContract: does not model how `np.array` treats the row it is given (inference.py:34). A feature that is a JSON list makes `np.array` raise ValueError (inhomogeneous shape), but the model returns Success with that list in the row. A feature that is a string makes numpy turn the whole row into strings, so the type code becomes the text `'1'`, but the model keeps `JNumber(1.0)`. The same holds for FailureInference.InputFn. The model stops at the list of decoded values.
- Random sampling, `train_test_split`, `to_csv` and the prints of the generator. The frame is an array of row records rather than pandas columns, and the labelled frame is returned as a sequence of rows.
- Floating-point rounding: all sensor values are exact reals. A comparison that sits within rounding error of a threshold may come out differently in the source.
- dashboard.py, iot_data_sender.py, train_model.py and my_sagemaker.py are not part of this model.
