/** The two tables of the application and the shapes a client may insert into them. */
module Schema {
  import opened Wrappers
  import opened Json

  /** A row of the `captures` table. `id` is a serial primary key, `timestamp` is set to the
      creation time (milliseconds since the epoch), `plateNumber` and `confidence` are nullable
      text columns. */
  datatype Capture = Capture(
    id: int,
    imageData: string,
    timestamp: int,
    plateNumber: Option<string>,
    confidence: Option<string>)

  /** The insert shape of `captures`: only `imageData` is picked. */
  datatype InsertCapture = InsertCapture(imageData: string)

  /** A row of the `watched_plates` table; `plateNumber` is non-null and unique. */
  datatype WatchedPlate = WatchedPlate(
    id: int,
    plateNumber: string,
    addedAt: int,
    description: Option<string>)

  /** The insert shape of `watched_plates`: `plateNumber` and an optional `description`. */
  datatype InsertWatchedPlate = InsertWatchedPlate(plateNumber: string, description: Option<string>)

  /** The body of a request that creates a capture with the given image. */
  function CaptureBody(imageData: string): JsonValue {
    JObject(map["imageData" := JString(imageData)])
  }

  /** Validation of a request body by the capture insert schema: the body must be an object whose
      `imageData` is a string; every other key is dropped. */
  function ParseInsertCapture(body: JsonValue): (r: Option<InsertCapture>)
    ensures r.Some? <==> body.JObject? && "imageData" in body.fields && body.fields["imageData"].JString?
    ensures r.Some? ==> body.fields["imageData"] == JString(r.value.imageData)
  {
    if body.JObject? && "imageData" in body.fields && body.fields["imageData"].JString? then
      Some(InsertCapture(body.fields["imageData"].s))
    else
      None
  }

  /** Keys other than `imageData` (an `id`, a `timestamp`, plate fields) never change what the
      capture insert schema admits or produces. */
  lemma ParseInsertCaptureIgnoresOtherKeys(fields: map<string, JsonValue>, key: string, v: JsonValue)
    requires key != "imageData"
    ensures ParseInsertCapture(JObject(fields[key := v])) == ParseInsertCapture(JObject(fields))
  {
  }

  /** A capture body built from an image parses back to that image. */
  lemma ParseCaptureBody(imageData: string)
    ensures ParseInsertCapture(CaptureBody(imageData)) == Some(InsertCapture(imageData))
  {
  }

  /** A nullable, optional text field: absent or `null` reads as no value, a string as that
      string, anything else is rejected (the outer None). */
  function OptionalText(fields: map<string, JsonValue>, key: string): (r: Option<Option<string>>)
    ensures r == Some(None) <==> key !in fields || fields[key] == JNull
    ensures r == None <==> key in fields && fields[key] != JNull && !fields[key].JString?
    ensures forall text :: r == Some(Some(text)) <==> key in fields && fields[key] == JString(text)
  {
    if key !in fields || fields[key] == JNull then Some(None)
    else if fields[key].JString? then Some(Some(fields[key].s))
    else None
  }

  /** Validation of a request body by the watched-plate insert schema: `plateNumber` must be a
      string, `description` may be absent, null or a string; every other key is dropped. */
  function ParseInsertWatchedPlate(body: JsonValue): (r: Option<InsertWatchedPlate>)
    ensures r.Some? <==>
      && body.JObject?
      && "plateNumber" in body.fields && body.fields["plateNumber"].JString?
      && OptionalText(body.fields, "description").Some?
    ensures r.Some? ==> body.fields["plateNumber"] == JString(r.value.plateNumber)
    ensures r.Some? ==> OptionalText(body.fields, "description") == Some(r.value.description)
  {
    if body.JObject? && "plateNumber" in body.fields && body.fields["plateNumber"].JString? then
      match OptionalText(body.fields, "description")
      case Some(d) => Some(InsertWatchedPlate(body.fields["plateNumber"].s, d))
      case None => None
    else
      None
  }

  /** A body holding only a plate string is admitted, with no description. */
  lemma DescriptionIsOptional(plate: string)
    ensures ParseInsertWatchedPlate(JObject(map["plateNumber" := JString(plate)]))
            == Some(InsertWatchedPlate(plate, None))
  {
  }

  /** No two rows of the watched-plate table share a plate string. */
  ghost predicate UniquePlates(rows: seq<WatchedPlate>) {
    forall i, j :: 0 <= i < j < |rows| ==> rows[i].plateNumber != rows[j].plateNumber
  }

  /** The `watched_plates` table: its rows and the next value of its serial `id`. */
  datatype WatchedTable = WatchedTable(rows: seq<WatchedPlate>, nextId: int)

  function HasPlate(rows: seq<WatchedPlate>, plate: string): bool {
    exists i | 0 <= i < |rows| :: rows[i].plateNumber == plate
  }

  /** An insert into `watched_plates` under its unique constraint: a plate string already in the
      table is refused with that string; otherwise one row is appended with the next serial id. */
  function InsertWatchedRow(t: WatchedTable, ins: InsertWatchedPlate, now: int): (r: Result<WatchedTable, string>)
    ensures r.Failure? <==> exists i :: 0 <= i < |t.rows| && t.rows[i].plateNumber == ins.plateNumber
    ensures r.Failure? ==> r.error == ins.plateNumber
    ensures r.Success? ==>
      && r.value.rows == t.rows + [WatchedPlate(t.nextId, ins.plateNumber, now, ins.description)]
      && r.value.nextId == t.nextId + 1
  {
    if HasPlate(t.rows, ins.plateNumber) then Failure(ins.plateNumber)
    else
      Success(WatchedTable(t.rows + [WatchedPlate(t.nextId, ins.plateNumber, now, ins.description)], t.nextId + 1))
  }

  /** Inserting into a table whose plates are unique keeps them unique. */
  lemma InsertKeepsPlatesUnique(t: WatchedTable, ins: InsertWatchedPlate, now: int)
    requires UniquePlates(t.rows)
    ensures InsertWatchedRow(t, ins, now).Success? ==> UniquePlates(InsertWatchedRow(t, ins, now).value.rows)
  {
  }
}
