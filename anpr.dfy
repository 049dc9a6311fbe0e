/** The recognition adapter: it sends the decoded image to the recognition script, collects the
    script's standard output and turns it into a detection, or into null when the script fails or
    its output is not JSON. It never rejects. */
module Anpr {
  import opened Wrappers
  import opened Json
  import opened Streams
  import DataUrl
  import DetectPlate

  /** What the adapter resolves with when it has a result: the `plate_number` and `confidence`
      properties of the parsed output, copied as they are. None stands for a property the output
      does not have (undefined). */
  datatype Detection = Detection(plateNumber: Option<JsonValue>, confidence: Option<JsonValue>)

  /** Reading `plate_number` or `confidence` off a parsed value that is not null: the object's own
      field when it has one, and undefined otherwise. Neither key is a property that a string,
      number, boolean, array or object inherits, so for these two keys nothing else can be found;
      the adapter reads no other key. */
  function Property(v: JsonValue, key: string): (r: Option<JsonValue>)
    ensures r.Some? <==> v.JObject? && key in v.fields
    ensures r.Some? ==> r.value == v.fields[key]
  {
    if v.JObject? && key in v.fields then Some(v.fields[key]) else None
  }

  /** Reading `plate_number` and `confidence` off the parsed output. Reading a property of null
      throws, which the surrounding `try` turns into None. */
  function ReadDetection(v: JsonValue): (r: Option<Detection>)
    ensures r.None? <==> v == JNull
    ensures r.Some? ==> r.value == Detection(Property(v, "plate_number"), Property(v, "confidence"))
  {
    if v == JNull then None else Some(Detection(Property(v, "plate_number"), Property(v, "confidence")))
  }

  /** The decision of the 'close' listener over the collected standard output. `parse` stands for
      `JSON.parse`, None where it throws. */
  function OnClose(status: ExitStatus, output: string, parse: string -> Option<JsonValue>): (r: Option<Detection>)
    ensures !Succeeded(status) ==> r == None
    ensures Succeeded(status) && parse(output) == None ==> r == None
    ensures Succeeded(status) && parse(output).Some? ==> r == ReadDetection(parse(output).value)
  {
    if !Succeeded(status) then None
    else
      match parse(output)
      case None => None
      case Some(v) => ReadDetection(v)
  }

  /** What the adapter writes to the error log. */
  datatype Logged = NothingLogged | EngineError(stderr: string) | ParseFailure

  /** `detectLicensePlate(imageData)` against one run of the recognition script. It returns the
      standard input the script is given, how the promise settles, and what is logged. */
  method DetectLicensePlate(
    imageData: string, run: ProcessRun,
    fromBase64: string -> seq<byte>, toText: seq<byte> -> string, parse: string -> Option<JsonValue>)
    returns (stdin: seq<byte>, settled: Settlement<Option<Detection>>, logged: Logged)
    ensures stdin == fromBase64(DataUrl.Strip(imageData))
    ensures settled.Resolved?
    ensures settled.value == OnClose(run.status, Concat(DecodeEach(run.stdout, toText)), parse)
    ensures !Succeeded(run.status) ==> logged == EngineError(Concat(DecodeEach(run.stderr, toText)))
    ensures Succeeded(run.status) ==> logged == (if settled.value.None? then ParseFailure else NothingLogged)
  {
    var base64Data := DataUrl.Strip(imageData);
    stdin := fromBase64(base64Data);
    var result := Accumulate(DecodeEach(run.stdout, toText));
    var error := Accumulate(DecodeEach(run.stderr, toText));
    if !Succeeded(run.status) {
      logged := EngineError(error);
      settled := Resolved(None);
      return;
    }
    var detection := OnClose(run.status, result, parse);
    logged := if detection.None? then ParseFailure else NothingLogged;
    settled := Resolved(detection);
  }

  /** The script's report reaches the caller unchanged: when the script prints its report and
      `JSON.parse` reads back the printed object, the adapter resolves with the script's plate
      (null when it had none) and confidence; when the script dies with a KeyError the adapter
      resolves with null. */
  lemma ScriptReportReachesCaller(out: DetectPlate.Outcome, printed: string, parse: string -> Option<JsonValue>)
    requires out.Printed? ==> parse(printed) == Some(DetectPlate.ReportJson(out.plateNumber, out.confidence))
    ensures out.KeyError? ==> OnClose(DetectPlate.ScriptStatus(out), printed, parse) == None
    ensures out.Printed? ==> OnClose(DetectPlate.ScriptStatus(out), printed, parse) == Some(Detection(
      Some(if out.plateNumber.Some? then JString(out.plateNumber.value) else JNull),
      Some(JNumber(out.confidence))))
  {
  }

  /** A report with no plate still resolves with an object, whose plate is null: the adapter does
      not turn "no plate found" into null. */
  lemma NoPlateIsNotNull(confidence: real, printed: string, parse: string -> Option<JsonValue>)
    requires parse(printed) == Some(DetectPlate.ReportJson(None, confidence))
    ensures OnClose(Exited(0), printed, parse) == Some(Detection(Some(JNull), Some(JNumber(confidence))))
  {
  }
}
