# StreetSense session aggregator, modelled in Dafny

StreetSense's "Try now" page (`TryNowPage`) turns a stream of polls to a pedestrian-detection
server into session state. Each poll returns a JSON body with four counts and an optional
`pedestrians` array. The page keeps, among others, these pieces of state:

- the session id, minted once when the page mounts;
- the latest summary of counts;
- a chart series of at most twenty samples;
- a history of pedestrian records, to which new ids are appended;
- the detection flag (`webcamActive`), with its one-second polling interval;
- a connection-error flag.

It can export the history as a CSV file. This project models that logic and proves its
properties:

- `js.dfy` (`Js`): the JSON values a poll body can hold, and JavaScript property access. Reading
  a property of `null` or `undefined` throws; that case is `None`.
- `records.dfy` (`Records`): the record normaliser, which fills in a default for every field
  that is missing or has the wrong type.
- `history.dfy` (`History`): the merge of a batch into the history. It compares ids against the
  history only.
- `series.dfy` (`Series`): the summary counts, the twenty-sample window and the chart scale.
- `csv.dfy` (`Csv`): the CSV export.
- `detection.dfy` (`Detection`): the `Session` class. Its fields are the page's state. Its
  methods are the start/stop button (`Toggle`, `Start`, `Stop`) and the two ends of a poll
  (`PollOk`, `PollFail`).

The values the page takes from the browser are parameters:

- `Date.parse` validity, `toISOString`, `Date.now`, `Math.random` and `toLocaleTimeString`.
  The normaliser gets them as an `Ambient` value, and each poll gets a `now` string.
- JavaScript's number-to-text conversion, which the export gets as `showNum`.

The model follows the code as written, including these points:

- A batch that holds two records with the same id keeps both (`History.BatchDuplicatesKept`).
  The merge checks ids against the history only.
- The export lists records in insertion order. Only the on-screen table sorts them by
  timestamp.
- The session id is minted once, when the page mounts (`Session.constructor`). A new start
  keeps it.
- The page awaits a start or stop request but never checks its HTTP status. Only a request
  that throws blocks the toggle.
- A stop request that throws leaves detection on and the interval armed. The interval is
  cleared only after the request returns.
- The normaliser is not total. A `null` entry in `pedestrians` makes `ped.timestamp` throw.
  The poll then ends with the error flag set, after the summary and the chart were already
  updated, and the history is left as it was (`Session.PollOk`).
- A `null` body throws when its first count is read, before any state changes.
- The summary is the server's counts, not counts computed from the history.

## Model

| member | source | states |
|---|---|---|
| `Js.Get` | frontend/app/try-now/page.tsx:102-105 | reading a property throws exactly when the value is null or undefined; otherwise it yields the field |
| `Js.Field` | frontend/app/try-now/page.tsx:129-139 | an object yields its field or `undefined`; any other non-null value yields `undefined` |
| `Js.NumberOr` | frontend/app/try-now/page.tsx:137-139 | a number is kept and any other value gives the fallback |
| `Js.Substring2To9` | frontend/app/try-now/page.tsx:63 | `substring(2, 9)` keeps at most seven characters, clamped to the text's length |
| `Records.RiskText` | frontend/app/try-now/page.tsx:21 | every risk level prints as one of "high", "medium", "low" |
| `Records.MintId` | frontend/app/try-now/page.tsx:63 | a minted id starts with its prefix and `_` and has a bounded length |
| `Records.RiskOf` | frontend/app/try-now/page.tsx:136 | high iff the raw value is the string "high", medium iff it is "medium", low otherwise |
| `Records.NormalizeEntry` | frontend/app/try-now/page.tsx:127-141 | every field is the raw value when it has the right type (and, for the timestamp, parses) and the default otherwise; the session id is always the current one |
| `Records.NormalizeBatch` | frontend/app/try-now/page.tsx:126-142 | the map fails iff some entry is null or undefined; otherwise it yields one record per entry, in order |
| `Records.EmptyEntryDefaults` | frontend/app/try-now/page.tsx:128-141 | an entry without fields normalises to a low-risk record with confidence 0.8 at (0, 0), a minted id and the capture time |
| `Records.NormalizeEncode` | frontend/app/try-now/page.tsx:127-141 | a record sent back as JSON, whose timestamp parses, normalises to itself under the current session id, so normalising is idempotent on such records |
| `Records.BatchTotal` | frontend/app/try-now/page.tsx:127-142 | a batch with no null entry always normalises, and every record carries the current session id |
| `History.Ids` | frontend/app/try-now/page.tsx:146 | the id set holds exactly the ids of the history |
| `History.Merge` | frontend/app/try-now/page.tsx:145-149 | the merge keeps the old history as an unchanged prefix and adds at most the batch's length |
| `History.Unseen` | frontend/app/try-now/page.tsx:147 | the filter keeps only incoming records with unknown ids and is no longer than the batch |
| `History.UnseenExactly` | frontend/app/try-now/page.tsx:147 | a record survives the filter iff it is incoming and its id is not known |
| `History.UnseenNone` | frontend/app/try-now/page.tsx:147 | when every incoming id is known, the filter keeps nothing |
| `History.UnseenAll` | frontend/app/try-now/page.tsx:147 | when no incoming id is known, the filter keeps the whole batch, duplicates included |
| `History.NewPositions` | frontend/app/try-now/page.tsx:147 | lists, in increasing order, batch positions whose id is unknown |
| `History.NewPositionsComplete` | frontend/app/try-now/page.tsx:147 | every batch position whose id is unknown is listed |
| `History.UnseenInOrder` | frontend/app/try-now/page.tsx:147 | the j-th kept record is the record at the j-th position with an unknown id |
| `History.IdsAppend` | frontend/app/try-now/page.tsx:146-148 | the ids of a concatenation are the union of the two id sets |
| `History.MergeKeepsHistory` | frontend/app/try-now/page.tsx:145-149 | the old history is an unchanged prefix, and the tail holds exactly the incoming records with unknown ids |
| `History.MergeAppendsInOrder` | frontend/app/try-now/page.tsx:147-148 | the appended tail lists every incoming record with an unknown id, in incoming order |
| `History.UnseenIds` | frontend/app/try-now/page.tsx:146-147 | the filter's ids are exactly the batch's ids that the history does not already hold |
| `History.MergeIds` | frontend/app/try-now/page.tsx:145-149 | after a merge the ids are those of the history together with those of the batch, so no id is lost |
| `History.MergeIdempotent` | frontend/app/try-now/page.tsx:145-149 | merging the same batch again is a no-op |
| `History.MergeDistinct` | frontend/app/try-now/page.tsx:146-148 | distinct ids in the history and in the batch give distinct ids in the result |
| `History.UnseenDistinct` | frontend/app/try-now/page.tsx:147 | the filter keeps ids distinct when the batch's ids are distinct |
| `History.BatchDuplicatesKept` | frontend/app/try-now/page.tsx:146-148 | two records of one batch with the same id are both appended, so the result has a repeated id |
| `Series.CountOrZero` | frontend/app/try-now/page.tsx:102-105 | a numeric count is kept, and a missing or non-numeric one reads as 0 |
| `Series.ReadSummary` | frontend/app/try-now/page.tsx:101-106 | the summary fails iff the body is null; otherwise each count is the body's number or 0 |
| `Series.Sample` | frontend/app/try-now/page.tsx:113-119 | the sample appended in a poll carries exactly that poll's four counts and time |
| `Series.Latest` | frontend/app/try-now/page.tsx:122 | `slice(-20)` is the tail of the sequence: its last twenty elements, or all of them when there are fewer |
| `Series.Window` | frontend/app/try-now/page.tsx:121-122 | the new sample is last; below twenty this is a plain append; otherwise the oldest sample is dropped and twenty remain |
| `Series.WindowIsLatest` | frontend/app/try-now/page.tsx:121-122 | one poll on a series of at most twenty samples leaves the last twenty of the old samples and the new one |
| `Series.LatestAbsorbs` | frontend/app/try-now/page.tsx:122 | trimming to twenty early does not change the last twenty of a longer sequence |
| `Series.FeedKeepsLatest` | frontend/app/try-now/page.tsx:112-123 | after any run of polls the series is exactly the last twenty samples in arrival order, never more than twenty |
| `Series.TwentyFiveSamples` | frontend/app/try-now/page.tsx:121-122 | twenty-five samples fed into an empty series leave the last twenty |
| `Series.Max` | frontend/app/try-now/page.tsx:252-254 | the larger of two values is at least both and equals one of them |
| `Series.Peak` | frontend/app/try-now/page.tsx:254 | a sample's peak is at least each of its four counts and equals one of them |
| `Series.MaxValue` | frontend/app/try-now/page.tsx:252-255 | the chart scale is at least 5 and at least every count of every sample, and is either 5 or one of those counts |
| `Series.QuietSeriesScale` | frontend/app/try-now/page.tsx:252-255 | an empty, all-zero or never-above-5 series is drawn on the scale 5 |
| `Csv.SplitJoin` | frontend/app/try-now/page.tsx:231-233 | parts joined with a separator they do not contain split back into the same parts |
| `Csv.Fields` | frontend/app/try-now/page.tsx:227-231 | a row has seven fields in header order: id, timestamp, risk text, confidence, position x, position y, session id |
| `Csv.Rows` | frontend/app/try-now/page.tsx:228-233 | one row per history record, in history order |
| `Csv.ExportHistory` | frontend/app/try-now/page.tsx:216-239 | an empty history gives only the notice; otherwise a file named after the session with the header and the rows |
| `Csv.HeaderOneLine` | frontend/app/try-now/page.tsx:227 | the header holds no newline |
| `Csv.Row` | frontend/app/try-now/page.tsx:231 | a row without commas inside its fields splits back into the record's seven fields |
| `Csv.JoinKeepsOut` | frontend/app/try-now/page.tsx:233 | joining parts that lack a character other than the separator gives a text without that character |
| `Csv.Document` | frontend/app/try-now/page.tsx:227-235 | the document always opens with the header line; an empty row list leaves only that line |
| `Csv.DocumentLines` | frontend/app/try-now/page.tsx:227-233 | the document's lines are the header followed by the rows |
| `Csv.ExportLines` | frontend/app/try-now/page.tsx:216-233 | a non-empty export has exactly one line more than the history: the header, then one seven-field line per record, in history order |
| `Detection.RecordsOf` | frontend/app/try-now/page.tsx:126-149 | the result is `NoArray` iff `pedestrians` is not an array and `BadEntry` iff it is an array with a null or undefined entry; otherwise the batch is exactly the normalised entries, one per entry, all in the current session |
| `Detection.MergeKeepsSession` | frontend/app/try-now/page.tsx:140-149 | merging records of the session keeps every history record in the session |
| `Detection.Session.constructor` | frontend/app/try-now/page.tsx:46-65 | the page mounts idle with no data and a session id minted once |
| `Detection.Session.Start` | frontend/app/try-now/page.tsx:185-203 | a start that answers clears history, series and summary and turns detection and the interval on; one that throws changes nothing |
| `Detection.Session.Stop` | frontend/app/try-now/page.tsx:173-184 | a stop that answers clears the interval and turns detection off, keeping the data; one that throws changes nothing |
| `Detection.Session.Toggle` | frontend/app/try-now/page.tsx:169-214 | the detection flag flips iff the request did not throw; a start clears the data, a stop keeps it, and the error flag is never touched |
| `Detection.Session.PollFail` | frontend/app/try-now/page.tsx:162-165 | a failed poll sets the error flag and changes neither history, series nor summary |
| `Detection.Session.PollOk` | frontend/app/try-now/page.tsx:89-149 | clears the error flag; a null body sets it and changes nothing else; otherwise the summary and window update, then the batch is merged, or the error flag is set on a null entry |
| `Detection.SingleEntryBatch` | frontend/app/try-now/page.tsx:126-149 | a body whose `pedestrians` array holds one non-null entry yields exactly that entry's record |
| `Detection.SingleRowExport` | frontend/app/try-now/page.tsx:216-235 | exporting a one-record history gives the header line followed by that record's row |
| `Detection.EndToEnd` | frontend/app/try-now/page.tsx:101-149 | one poll with one high-risk pedestrian yields summary (1, 1, 0, 0), one matching sample, and that record, with the body's fields and the session id, as the whole history |

## Left out

- Rendering: the JSX, SVG chart coordinates, risk-bar heights and the on-screen table. The table's
  descending-timestamp sort and 50-row cap are presentation only.
- HTTP and JSON parsing. A poll is either `PollOk` with the parsed body or `PollFail`, which
  covers a thrown fetch, a non-2xx reply and a body that is not JSON. A start or stop request is
  either `Answered` or `Threw`.
- The Supabase insert loop. It only writes outside the page, and it swallows its own errors.
- The Blob / object-URL download plumbing and the toasts. An export is the file name and its
  text, or the `NothingToExport` notice.
- `setInterval`/`useEffect`. The interval is the `timerArmed` flag. The poll that the effect
  fires right after a start is left to the caller.
- React's batching and asynchronous interleaving. Each poll and each toggle is one atomic
  transition. `PollOk` does not require detection to be on, because a poll already in flight
  when a stop lands still updates the state.
- `isLoading`. It is only observable while a request is pending, and every toggle ends by
  resetting it.
- The video `<img>` `onError` handler that also sets the connection-error flag. It is part of the
  rendered markup.
- JavaScript numbers are reals, so NaN and the infinities are not modelled. JSON cannot carry
  NaN, and `|| 0` would map it to 0. A number too large for a double (`1e999`) parses to
  Infinity: as a count, `||` keeps it and the chart scale becomes Infinity; as a confidence or
  position it is kept. A truthy non-number count passes through `||`, and `Math.max` converts it
  to a number: `"7"` counts as 7 and `true` as 1, while a non-numeric string or an object makes
  the scale NaN (see `Series.CountOrZero`).
- `Series.CountOrZero`: reads a truthy non-number count (a string, `true`, an object) as 0. The
  source's `||` passes such a value through unchanged, and the model leaves out JavaScript's
  coercion of it in `Math.max`.
- `Csv.ExportLines`: holds only when no field contains a comma or a newline. The source neither
  quotes nor escapes, so a field that contains one breaks the line structure.
- `Csv.HeaderOneLine`: the header is built by joining the seven column names with commas. The
  model does not prove that this join equals the source's literal header text character by
  character.
- The backend (`backend/main.py`, `backend/server.py`, `backend/utils.py`): detection with YOLO,
  OpenCV drawing and Flask routes. These are outside the page.
- `frontend/app/page.tsx` and `frontend/page.tsx`: static marketing content.
