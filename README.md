# License-plate capture store and recognition adapters, in Dafny

This project models the logic core of a small license-plate recognition application:

- **Schema** (`schema.dfy`): the `captures` and `watched_plates` tables and their insert schemas. A
  capture has a serial `id`, a required `imageData`, a non-null creation `timestamp`, and nullable
  text columns `plateNumber` and `confidence`. The capture insert schema admits only `imageData`.
  The watched-plate insert schema admits `plateNumber` and an optional, nullable `description`.
  Watched plate strings are unique across the table.
- **Capture store** (`storage.dfy`): the in-memory store `MemStorage`, a class over a map from id
  to capture and a counter for the next id. It supports create, delete and a newest-first listing.
  Its invariant: every stored capture sits under its own id, every id is below the counter, and no
  stored capture carries a plate reading.
- **Process streams** (`streams.dfy`): a child process as its adapter sees it. That is the chunks
  it writes to standard output and standard error, and its exit status. The chunks are
  accumulated in order, and a promise settles as `Resolved` or `Rejected`.
- **Data-URL prefix** (`dataurl.dfy`): the anchored, single-match removal of
  `data:image/<word>;base64,` that both adapters apply to their input.
- **Transcoding adapter** (`image.ts`, modelled in `image.dfy`): the image is resized by a
  `convert` process. It rejects when the process fails, and otherwise resolves with a JPEG data
  URL of the collected output.
- **Recognition adapter** (`anpr.ts`, modelled in `anpr.dfy`): the recognition script is run, and
  its output is parsed as JSON. The adapter resolves with the `plate_number`/`confidence` pair
  copied verbatim, or with null when the script fails or its output does not parse. It never
  rejects.
- **Best-detection selection** (`detect_plate.py`, modelled in `detect_plate.dfy`): the script's
  nested loop over result groups and boxes. It keeps the first box whose confidence is strictly
  greatest and above 0, together with that box's label. The confidence is reported as a
  percentage.

Subprocesses are modelled by what they deliver: an exit status plus the chunks written to each
stream. Base64 encoding and decoding, UTF-8 decoding of a chunk, and `JSON.parse` are opaque
function parameters. Clock readings are parameters too.

Behaviour of the code worth noting, which the model follows:

- There is no ingest pipeline. The capture route stores the submitted image unchanged
  (server/routes.ts:19). Nothing calls the resize or recognition adapters. The store has no
  operation that fills the plate fields. So the model has neither a pipeline nor a field update,
  and stored captures provably never carry a plate reading.
- The recognition result is not "both fields or neither". When no box is above 0, the script
  reports `plate_number: null` with confidence 0. The adapter resolves with an object whose plate
  is null (`Anpr.NoPlateIsNotNull`), not with null.
- The reported confidence is a percentage (100 times the box confidence), not a score in [0, 1].
  The capture table stores confidence as text.
- Engine failures are not surfaced as errors. The recognition adapter resolves with null. Only
  the transcoding adapter rejects.

## Model

| member | source | states |
|---|---|---|
| `Schema.ParseInsertCapture` | shared/schema.ts:20-22 | a body is admitted exactly when it is an object whose `imageData` is a string, and the insert carries that string |
| `Schema.ParseInsertCaptureIgnoresOtherKeys` | shared/schema.ts:20-22 | adding or changing any key other than `imageData` (an id, a timestamp, plate fields) never changes the outcome, so callers cannot set those columns |
| `Schema.ParseCaptureBody` | shared/schema.ts:20-22 | a body holding an image string parses back to an insert of that image |
| `Schema.OptionalText` | shared/schema.ts:17 | a nullable optional text field reads as no value when absent or null and as the string when a string; any other value is rejected |
| `Schema.ParseInsertWatchedPlate` | shared/schema.ts:24-27 | a body is admitted exactly when `plateNumber` is a string and `description` is absent, null or a string; the insert carries those values |
| `Schema.DescriptionIsOptional` | shared/schema.ts:17 | a body with only a plate string is admitted with no description |
| `Schema.InsertWatchedRow` | shared/schema.ts:13-18 | an insert fails, naming the plate, exactly when the plate string is already in the table; otherwise it appends one row with the next serial id and advances the serial |
| `Schema.InsertKeepsPlatesUnique` | shared/schema.ts:15 | inserting into a table with unique plate strings keeps them unique |
| `Storage.ListedBefore` | server/storage.ts:19-21 | the comparator `b.timestamp - a.timestamp` under a stable sort: a later timestamp comes first, an earlier one never does, and equal timestamps keep creation (id) order |
| `Storage.ListedBeforeIsStrictTotal` | server/storage.ts:19-21 | the listing order is never both ways, relates any two different ids one way, and is transitive |
| `Storage.InsertNewest` | server/storage.ts:19-21 | placing a newer capture into a newest-first list keeps it newest-first, adds exactly that capture and keeps every other |
| `Storage.ListsBelowStep` | server/storage.ts:19-21 | taking in the capture stored under the next id keeps the list newest first and holding exactly the captures stored below that id |
| `Storage.MemStorage.constructor` | server/storage.ts:13-16 | a fresh store is empty, with the counter at 1, and satisfies the invariant |
| `Storage.MemStorage.CreateCapture` | server/storage.ts:24-35 | the new capture has the old counter as id, the given image, the given time and null plate fields; that id was not stored; exactly that entry is added; the counter grows by one; the invariant holds |
| `Storage.MemStorage.DeleteCapture` | server/storage.ts:37-39 | exactly the given key is removed; an absent key leaves the map unchanged, with no error; the counter is unchanged |
| `Storage.MemStorage.GetCaptures` | server/storage.ts:18-22 | the list holds every stored capture exactly once and nothing else, ordered newest first, with equal timestamps in creation order; the store is not changed |
| `Storage.CreateDeleteCreate` | server/storage.ts:25 | after a capture is created and deleted, the next capture gets a larger id and the deleted one stays gone |
| `Streams.ConcatAppend` | server/services/image.ts:18-20 | accumulating the chunks of two consecutive runs gives the first run's bytes followed by the second run's |
| `Streams.ConcatLength` | server/services/image.ts:18-20 | the accumulated length is the sum of the chunk lengths |
| `Streams.Accumulate` | server/services/image.ts:15-24 | the accumulator that starts empty and appends each chunk ends as the in-order concatenation of all chunks, as long as all chunks together |
| `Streams.Succeeded` | server/services/image.ts:27 | the test `code !== 0` counts only an exit code of exactly 0 as success; a signal (null code) is a failure |
| `Streams.DecodeEach` | server/services/anpr.ts:28-34 | every chunk is turned to text on its own, in order |
| `DataUrl.WordRun` | server/services/image.ts:6 | the run of `\w` characters at the start of a string: all word characters, followed by a non-word character or the end |
| `DataUrl.PrefixEndsAfterWordRun` | server/services/image.ts:6 | any match ends right after the word run that follows `data:image/` |
| `DataUrl.PrefixUnique` | server/services/image.ts:6 | the pattern matches at most one prefix of a string |
| `DataUrl.MatchLength` | server/services/image.ts:6 | the reported length is that of a match at the start, or 0 when no prefix of the string matches |
| `DataUrl.Strip` | server/services/anpr.ts:12 | the result is a suffix of the input; what was removed is a match of `^data:image/\w+;base64,`; when nothing is removed, no prefix matches |
| `DataUrl.StripWrapped` | server/services/image.ts:6 | stripping `data:image/<word>;base64,<rest>` gives exactly `<rest>` |
| `DataUrl.NonWordTypeUnchanged` | server/services/image.ts:6 | when the run of word characters after `data:image/` is followed by anything but `;`, the string passes unchanged |
| `DataUrl.SvgDataUrlUnchanged` | server/services/image.ts:6 | an SVG data URL, whose type `svg+xml` is not a word, passes unchanged |
| `DataUrl.NotAtStartUnchanged` | server/services/image.ts:6 | a data-URL prefix that does not start the string is not removed |
| `Image.Decimal` | server/services/image.ts:11 | the written scale is a non-empty string of decimal digits without leading zeros |
| `Image.DecimalRoundTrip` | server/services/image.ts:11 | reading the written digits back gives the scale |
| `Image.ScaleArgument` | server/services/image.ts:11 | the `-resize` argument is the scale in decimal, signed when negative, followed by `%` |
| `Image.DefaultScaleArgument` | server/services/image.ts:3 | with the default scale the argument is `50%` |
| `Image.ConvertArguments` | server/services/image.ts:9-13 | the command reads standard input, resizes by the scale argument and writes JPEG to standard output |
| `Image.OnClose` | server/services/image.ts:26-35 | the promise rejects, with `Failed to resize image`, exactly when the exit code is not 0; otherwise it resolves with a JPEG data URL whose stripped payload is the base64 of the output |
| `Image.ResizeImage` | server/services/image.ts:3-40 | the scale defaults to 50; the process gets the fixed arguments and the decoded, prefix-stripped input; the settlement is the close decision over all stdout chunks in order; stderr text is reported only on failure and never returned |
| `Image.ResizedIsJpegOfOutput` | server/services/image.ts:33-34 | on exit code 0 the result is always `data:image/jpeg;base64,` plus the encoded output, whatever type the input named |
| `Anpr.Property` | server/services/anpr.ts:46-47 | reading `plate_number` or `confidence` off a non-null parsed value gives the object's own field, and undefined when it has none or is not an object (neither key is inherited by any JSON value) |
| `Anpr.ReadDetection` | server/services/anpr.ts:44-48 | reading the two properties fails exactly on a null value; otherwise they are copied verbatim, null included |
| `Anpr.OnClose` | server/services/anpr.ts:36-53 | a non-zero or missing exit code gives null; unparseable output gives null; otherwise the result is read from the parsed value |
| `Anpr.DetectLicensePlate` | server/services/anpr.ts:10-55 | the script gets the decoded, prefix-stripped input; the promise always resolves, never rejects, with the close decision over the stdout text; a failed run logs the stderr text; after a successful run a parse failure is logged exactly when the promise resolves null, and nothing is logged otherwise |
| `Anpr.ScriptReportReachesCaller` | server/services/anpr.ts:43-48 | the script's printed plate (or null) and confidence reach the caller unchanged; a script that dies with a KeyError yields null |
| `Anpr.NoPlateIsNotNull` | server/services/anpr.ts:44-48 | a report without a plate resolves with an object whose plate is null, not with null |
| `DetectPlate.Label` | server/services/detect_plate.py:29-34 | the label is the class name when the result has names and the box a class, DETECTED otherwise, and a KeyError when the names lack the class |
| `DetectPlate.GroupCandidates` | server/services/detect_plate.py:24-25 | each box of a result contributes its confidence and its label, in order |
| `DetectPlate.CandidatesPrefix` | server/services/detect_plate.py:23-24 | the boxes of the first k results come first in the overall iteration order |
| `DetectPlate.Step` | server/services/detect_plate.py:25-34 | only a strictly greater confidence changes the state, taking that confidence and the box's label; a missing class name then raises a KeyError naming the class; an equal or lower one, or a raised KeyError, leaves the state as it is |
| `DetectPlate.Run` | server/services/detect_plate.py:20-27 | starting from `max_conf = 0` and no label, the scan's maximum is never below 0, and a label is kept exactly when the maximum is above 0 |
| `DetectPlate.Finish` | server/services/detect_plate.py:36-38 | a KeyError ends the script with that class; otherwise the confidence is reported as 100 times the maximum and an empty label is never reported as a plate |
| `DetectPlate.Truthy` | server/services/detect_plate.py:37 | a missing or empty label is reported as None; any other label as itself |
| `DetectPlate.SelectBest` | server/services/detect_plate.py:20-39 | the nested loop's result is the report of the running-maximum scan over all boxes in iteration order |
| `DetectPlate.RunStep` | server/services/detect_plate.py:24-34 | visiting one more box is one step of the scan |
| `DetectPlate.CandidatesStep` | server/services/detect_plate.py:23-24 | finishing a result's boxes finishes the results up to and including it |
| `DetectPlate.RaisedEndsRun` | server/services/detect_plate.py:30 | a KeyError at some box is the outcome of the whole selection |
| `DetectPlate.RaisedSticks` | server/services/detect_plate.py:30 | after a KeyError, no later box changes the outcome |
| `DetectPlate.MaxConfIsMaximum` | server/services/detect_plate.py:21 | the maximum confidence is at least 0 and at least every box's confidence, and when it is above 0 some box attains it |
| `DetectPlate.MaxConfMonotone` | server/services/detect_plate.py:26-27 | the maximum never decreases as more boxes are visited |
| `DetectPlate.FirstReaching` | server/services/detect_plate.py:26 | the first box whose confidence reaches a value; every earlier box is below it |
| `DetectPlate.RunTracksMax` | server/services/detect_plate.py:21-27 | `max_conf` is always the greatest confidence seen so far, or 0 |
| `DetectPlate.RaisedIffRecordLacksName` | server/services/detect_plate.py:26-30 | the script dies with a KeyError exactly when a box that raises the running maximum has a class its names lack, and the error names such a class |
| `DetectPlate.RunKeepsFirstMaximum` | server/services/detect_plate.py:26-34 | when some box is above 0, the kept label is that of the first box with the greatest confidence; ties keep the earlier box |
| `DetectPlate.NothingAboveZero` | server/services/detect_plate.py:36-38 | with no box, or only boxes at or below 0, the report is no plate and confidence 0 |
| `DetectPlate.ReportedBest` | server/services/detect_plate.py:36-38 | the reported confidence is 100 times the greatest box confidence (0 when none is above 0), and the plate is the first maximal box's label unless it is empty |
| `DetectPlate.ReportJson` | server/services/detect_plate.py:55 | the printed object has exactly the keys `plate_number` and `confidence`; the plate is null exactly when there is none, and otherwise the label string; the confidence is the number |
| `DetectPlate.ScriptStatus` | server/services/detect_plate.py:54-55 | the script exits with code 0 exactly when it prints a report; an uncaught KeyError ends it with exit code 1 |

## Left out

- The client (React components, camera access, the watch-list form and its `trim().toUpperCase()`) and the HTTP routes in server/routes.ts. The routes only call the insert schema and the store; neither adapter is called from them.
- Spawning processes, writing to their standard input, and the scheduling of stream events. A run is given as its chunks and its exit status, and every 'data' event precedes 'close'.
- Base64 encoding and decoding, UTF-8 decoding of a chunk, `JSON.parse` and `json.dumps`. They are opaque function parameters. `Anpr.ScriptReportReachesCaller` takes as a hypothesis that parsing reads back the printed object.
- Model loading, inference and image decoding in detect_plate.py, and its command-line parsing. The model's results are an input to `DetectPlate.SelectBest`.
- `DetectPlate.SelectBest`: `round(max_conf * 100, 2)` is modelled without the rounding, and confidences are exact reals rather than IEEE floats (no NaN).
- `Image.ScaleArgument`: only integer scales are modelled. JavaScript's formatting of fractional numbers is not, and integers of magnitude 10^21 or more, which JavaScript writes in exponent form (`1e+21%`), are not either.
- The script and model paths that `detectLicensePlate` builds with `path.join` over the working directory are not modelled.
- `new Date()`: the creation time is a parameter of `CreateCapture`.
- `Storage.MemStorage.CreateCapture`: the counter is an unbounded integer. In the source it is a JavaScript number, which stops increasing at 2^53, so the guarantee that an id is never handed out twice holds there only below 2^53.
- `Storage.MemStorage.GetCaptures`: captures are values. The source returns the stored objects themselves from `createCapture` and `getCaptures`, so a caller that changed a returned capture would change the store; that aliasing is not modelled.
- `Storage.MemStorage.GetCaptures`: the map's insertion-order iteration is modelled as a scan of ids in increasing order. Ids are handed out increasing and never stored twice, so the two orders agree. `Array.prototype.sort` is modelled by stable insertion (`Storage.InsertNewest`).
- `Schema.InsertWatchedRow`: the source has no watched-plate operations. Only the table's unique constraint on insert is modelled, and the serial value a failed insert consumes is not.
- Console logging is modelled as the `reported`/`logged` outputs of the adapters. The exception object logged on a parse failure is not modelled.
- Concurrency between requests, and the promise machinery itself. Each adapter call is one sequential run.
