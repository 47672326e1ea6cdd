/** The interactive session of the monitor: the connection to the device, the
    history of predictions and the history of inference latencies, and the
    operations that change them. */
module AppSession {
  import opened Wrappers
  import opened Text
  import opened Sensors
  import opened LineParser
  import opened Prediction

  /** An open serial connection: device name, baud rate and read timeout (seconds). */
  datatype Port = Port(device: string, baudRate: nat, timeout: nat)

  const ArduinoPort: Port := Port("COM13", 9600, 1)

  /** The network tag used when none has been selected. */
  const DefaultNetwork: string := "4G"

  datatype ClassProbabilities = ClassProbabilities(normal: real, warning: real, critical: real)

  datatype PredictionResult = PredictionResult(
    inputData: string,
    probabilities: ClassProbabilities,
    prediction: string,
    latency: real)

  datatype LatencyRecord = LatencyRecord(
    timestamp: string,
    networkType: string,
    latency: real,
    prediction: string)

  datatype HistoryEntry = HistoryEntry(
    timestamp: string,
    sensorData: Reading,
    endpointInput: string,
    prediction: string,
    probabilities: ClassProbabilities)

  /** The reading obtained by a read: the line must be read from an open port
      (already open, or connected now) and must parse. */
  function ReadOutcome(wasOpen: bool, opens: bool, line: Option<string>, toFloat: string -> Option<real>): Option<Reading> {
    if (wasOpen || opens) && line.Some? then ParseLineSpec(line.value, toFloat) else None
  }

  /** The probabilities parsed from the endpoint's answer to a complete reading. */
  function ResponseOutcome(data: Reading, response: Option<string>, toFloat: string -> Option<real>): (r: Option<seq<real>>)
    ensures r.Some? ==> |r.value| >= 1
  {
    if Complete(data) && response.Some? then Probabilities(response.value, toFloat) else None
  }

  /** A latency record is written once a class label has been chosen, that is,
      when the first largest probability is one of the three classes. */
  predicate Labelled(ps: Option<seq<real>>) {
    ps.Some? && |ps.value| > 0 && ArgMax(ps.value) < |ClassLabels|
  }

  /** The history entry one read-and-predict cycle stores, if any: the reading
      must be non-empty and complete and the answer must give a result. */
  function CycleEntry(reading: Option<Reading>, floatText: real -> string, toFloat: string -> Option<real>,
                      response: Option<string>, historyStamp: string): Option<HistoryEntry>
  {
    if reading.Some? && |reading.value| > 0 && Complete(reading.value) then
      var ps := ResponseOutcome(reading.value, response, toFloat);
      if Labelled(ps) && |ps.value| >= 3 then
        Some(HistoryEntry(historyStamp, reading.value, RequestBody(reading.value, floatText),
                          ClassLabels[ArgMax(ps.value)],
                          ClassProbabilities(ps.value[0], ps.value[1], ps.value[2])))
      else None
    else None
  }

  /** The latency records one read-and-predict cycle appends: one, naming the
      chosen class, when the reading is non-empty and complete and the answer
      names a class; none otherwise. */
  function CycleLatency(reading: Option<Reading>, toFloat: string -> Option<real>, response: Option<string>,
                        latency: real, latencyStamp: string, networkType: Option<string>): seq<LatencyRecord>
  {
    if reading.Some? && |reading.value| > 0 && Complete(reading.value) then
      var ps := ResponseOutcome(reading.value, response, toFloat);
      if Labelled(ps) then
        [LatencyRecord(latencyStamp, networkType.GetOr(DefaultNetwork), latency, ClassLabels[ArgMax(ps.value)])]
      else []
    else []
  }

  /** A cycle that stores a history entry also appends exactly one latency
      record, and both name the same class; a cycle that appends no latency
      record stores nothing. */
  lemma CycleRecordsAgree(reading: Option<Reading>, floatText: real -> string, toFloat: string -> Option<real>,
                          response: Option<string>, latency: real, latencyStamp: string, historyStamp: string,
                          networkType: Option<string>)
    ensures var entry := CycleEntry(reading, floatText, toFloat, response, historyStamp);
            var records := CycleLatency(reading, toFloat, response, latency, latencyStamp, networkType);
            && |records| <= 1
            && (entry.Some? ==> |records| == 1 && records[0].prediction == entry.value.prediction)
            && (records == [] ==> entry.None?)
  {
  }

  /** An answer with one or two numbers still names a class, so a latency
      record is written, but it has no third probability, so no result. */
  lemma ShortAnswerRecordsLatencyOnly(ps: seq<real>)
    requires 1 <= |ps| < |ClassLabels|
    ensures Labelled(Some(ps)) && !(|ps| >= 3)
  {
    ArgMaxIsFirstMaximum(ps);
  }

  /** An answer with a field that is not a number records nothing. */
  lemma NonNumericAnswerRecordsNothing(data: Reading, body: string, toFloat: string -> Option<real>)
    requires exists k :: 0 <= k < |SplitOn(Trim(body), ",")| && toFloat(SplitOn(Trim(body), ",")[k]).None?
    ensures !Labelled(ResponseOutcome(data, Some(body), toFloat))
  {
  }

  /** An answer with more than three numbers is accepted when its first
      largest value is among the first three, and refused (nothing recorded)
      when it lies further on. */
  lemma LongAnswers()
    ensures Labelled(Some([0.7, 0.1, 0.1, 0.1])) && ArgMax([0.7, 0.1, 0.1, 0.1]) == 0
    ensures !Labelled(Some([0.1, 0.1, 0.1, 0.7]))
  {
    assert Max([0.1, 0.1, 0.1, 0.7]) == 0.7;
  }

  class Session {
    var history: seq<HistoryEntry>
    var latencyHistory: seq<LatencyRecord>
    var arduino: Option<Port>
    var connectionStatus: bool

    /** The status flag shows exactly whether a port is held. */
    ghost predicate Valid()
      reads this
    {
      connectionStatus == arduino.Some?
    }

    constructor ()
      ensures Valid()
      ensures history == [] && latencyHistory == []
      ensures arduino.None? && !connectionStatus
    {
      history := [];
      latencyHistory := [];
      arduino := None;
      connectionStatus := false;
    }

    /** `connect_arduino`; `opens` says whether opening the serial port succeeds.
        The result is true only when this call connected the port. */
    method Connect(opens: bool) returns (connected: bool)
      requires Valid()
      modifies this`arduino, this`connectionStatus
      ensures Valid()
      ensures old(arduino).Some? ==> arduino == old(arduino) && !connected
      ensures old(arduino).None? ==> connected == opens && arduino == (if opens then Some(ArduinoPort) else None)
    {
      connected := false;
      if arduino.None? {
        if opens {
          arduino := Some(ArduinoPort);
          connectionStatus := true;
          connected := true;
        } else {
          connectionStatus := false;
          arduino := None;
          connected := false;
        }
      }
    }

    /** `disconnect_arduino`; `closes` says whether closing the port succeeds.
        A failed close leaves the session as it was. */
    method Disconnect(closes: bool)
      requires Valid()
      modifies this`arduino, this`connectionStatus
      ensures Valid()
      ensures old(arduino).Some? && closes ==> arduino.None? && !connectionStatus
      ensures !(old(arduino).Some? && closes) ==> arduino == old(arduino) && connectionStatus == old(connectionStatus)
    {
      if arduino.Some? {
        if closes {
          arduino := None;
          connectionStatus := false;
        }
      }
    }

    /** `read_sensor_data`: connect if needed, read one line (`line` is None when
        reading or decoding it raises) and parse it. Any failure drops the port. */
    method ReadSensorData(opens: bool, line: Option<string>, toFloat: string -> Option<real>) returns (data: Option<Reading>)
      requires Valid()
      modifies this`arduino, this`connectionStatus
      ensures Valid()
      ensures data == ReadOutcome(old(arduino).Some?, opens, line, toFloat)
      ensures data.None? ==> arduino.None? && !connectionStatus
      ensures data.Some? ==> arduino == (if old(arduino).Some? then old(arduino) else Some(ArduinoPort))
    {
      if arduino.None? {
        var connected := Connect(opens);
        if !connected {
          return None;
        }
      }
      if line.None? {
        arduino := None;
        connectionStatus := false;
        return None;
      }
      data := ParseLine(line.value, toFloat);
      if data.None? {
        arduino := None;
        connectionStatus := false;
      }
    }

    /** `get_prediction`: build the request from a reading, read the endpoint's
        answer (`response` is None when the call raises), append a latency
        record once a label is chosen, and return the result when the answer
        holds at least three probabilities. */
    method GetPrediction(data: Reading, floatText: real -> string, toFloat: string -> Option<real>,
                         response: Option<string>, latency: real, timestamp: string,
                         networkType: Option<string>)
      returns (result: Option<PredictionResult>)
      modifies this`latencyHistory
      ensures var ps := ResponseOutcome(data, response, toFloat);
              Labelled(ps) ==> (latencyHistory == old(latencyHistory) +
                [LatencyRecord(timestamp, networkType.GetOr(DefaultNetwork), latency, ClassLabels[ArgMax(ps.value)])])
      ensures !Labelled(ResponseOutcome(data, response, toFloat)) ==> latencyHistory == old(latencyHistory)
      ensures var ps := ResponseOutcome(data, response, toFloat);
              result.Some? <==> Labelled(ps) && |ps.value| >= 3
      ensures var ps := ResponseOutcome(data, response, toFloat);
              result.Some? ==> (Complete(data) && |ps.value| >= 3 && result.value ==
                PredictionResult(RequestBody(data, floatText),
                                 ClassProbabilities(ps.value[0], ps.value[1], ps.value[2]),
                                 ClassLabels[ArgMax(ps.value)], latency))
    {
      result := None;
      if !Complete(data) {
        return;
      }
      var features := FeatureVector(data);
      var csv := Join(FeatureTexts(features, floatText), ",");
      if response.None? {
        return;
      }
      var probabilities := ParseNumbers(SplitOn(Trim(response.value), ","), toFloat);
      if probabilities.None? {
        return;
      }
      var ps := probabilities.value;
      var best := IndexOfValue(ps, Max(ps));
      if best >= |ClassLabels| {
        return;
      }
      var network := networkType.GetOr(DefaultNetwork);
      latencyHistory := latencyHistory + [LatencyRecord(timestamp, network, latency, ClassLabels[best])];
      if |ps| < 3 {
        return;
      }
      result := Some(PredictionResult(csv, ClassProbabilities(ps[0], ps[1], ps[2]), ClassLabels[best], latency));
    }

    /** The "Read Sensor Data and Predict" action: read, then predict and store. */
    method ReadAndPredict(opens: bool, line: Option<string>, toFloat: string -> Option<real>,
                          floatText: real -> string, response: Option<string>, latency: real,
                          latencyStamp: string, historyStamp: string, networkType: Option<string>)
      returns (entry: Option<HistoryEntry>)
      requires Valid()
      modifies this
      ensures Valid()
      ensures entry == CycleEntry(ReadOutcome(old(arduino).Some?, opens, line, toFloat), floatText, toFloat,
                                  response, historyStamp)
      ensures history == old(history) + (if entry.Some? then [entry.value] else [])
      ensures latencyHistory == old(latencyHistory) +
                CycleLatency(ReadOutcome(old(arduino).Some?, opens, line, toFloat), toFloat, response,
                             latency, latencyStamp, networkType)
      ensures ReadOutcome(old(arduino).Some?, opens, line, toFloat).None? ==> arduino.None? && !connectionStatus
      ensures ReadOutcome(old(arduino).Some?, opens, line, toFloat).Some? ==>
                arduino == (if old(arduino).Some? then old(arduino) else Some(ArduinoPort))
    {
      var sensorData := ReadSensorData(opens, line, toFloat);
      entry := PredictAndStore(sensorData, floatText, toFloat, response, latency, latencyStamp,
                               historyStamp, networkType);
    }

    /** The rest of the action once the read is done: when the reading is
        non-empty and complete, predict; a prediction is stored in the history. */
    method PredictAndStore(sensorData: Option<Reading>, floatText: real -> string, toFloat: string -> Option<real>,
                           response: Option<string>, latency: real, latencyStamp: string,
                           historyStamp: string, networkType: Option<string>)
      returns (entry: Option<HistoryEntry>)
      modifies this`history, this`latencyHistory
      ensures entry == CycleEntry(sensorData, floatText, toFloat, response, historyStamp)
      ensures history == old(history) + (if entry.Some? then [entry.value] else [])
      ensures latencyHistory == old(latencyHistory) +
                CycleLatency(sensorData, toFloat, response, latency, latencyStamp, networkType)
    {
      entry := None;
      if sensorData.Some? && |sensorData.value| > 0 && Complete(sensorData.value) {
        var result := GetPrediction(sensorData.value, floatText, toFloat, response, latency,
                                    latencyStamp, networkType);
        if result.Some? {
          var r := result.value;
          entry := Some(HistoryEntry(historyStamp, sensorData.value, r.inputData, r.prediction, r.probabilities));
          history := history + [entry.value];
        }
      }
    }
  }
}
