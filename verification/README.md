# sheet-updaters, modelled in Dafny

The job copies availability and budget figures from a JSON HTTP API into a
spreadsheet. Each run reads five settings from the environment, GETs the
source API, checks that the answer carries a `data` array, turns every
record of that array into a fixed 13-column row, clears a destination range
and writes the rows at an anchor cell. It exits with status 0 on success,
1 when a required setting is missing, and 2 on any later failure.

The model keeps the program's logic and replaces its I/O by values:

- `results.dfy` (`Results`): `Option` and `Result`.
- `json.dfy` (`JsonValues`): parsed JSON values. It also holds JavaScript
  truthiness, property reads (`None` is `undefined`) and the `??` operator.
- `config.dfy` (`Config`): the environment as a `map<string, string>`, the
  `||` fallback for the two ranges, and the required-settings check.
- `rows.dfy` (`Rows`): the column table and the record-to-row mapping.
- `failures.dfy` (`Failures`): every way a run can stop, and its exit status.
- `fetch.dfy` (`Fetch`): `fetchRows`. The HTTP answer is an input: no
  response, or a status code with a body that may not parse as JSON.
- `pipeline.dfy` (`Pipeline`): `updateSheet` and the whole run. The run
  returns its exit status and a trace of the requests it issued, in order:
  the GET, the clear and the update. The answers of the spreadsheet service
  are boolean inputs.

A `null` element of `data` makes `item.shop_name` throw a TypeError, so
`fetchRows` fails and the run exits with status 2 before any spreadsheet
call (`Pipeline.NullRecordAbortsRun`). Other non-object elements (numbers,
strings, booleans, arrays) read every field as `undefined` and become rows
of defaults.

## Model

| member | source | states |
|---|---|---|
| Config.Resolve | index.js:5-19 | A configuration exists iff SHEET_ID, SOURCE_API_URL and SOURCE_API_KEY are all set and non-empty. The three are copied from the environment. Each range is the environment value when it is non-empty, and otherwise `シート!A2` or `シート!A12:Z2000`. Every field of a resolved configuration is non-empty. |
| Rows.MapRow | index.js:51-65 | A non-null record gives a row of exactly 13 cells, in the fixed column order. A field that is present and not null is copied verbatim, falsy values included. A missing or null field gives `""` in columns 0-10 and `"-"` in columns 11-12. A `null` record gives no row, because reading its fields throws. |
| Rows.Cell | index.js:52-64 | For a non-null record, column i of the table: the record's field named by column i when it is present and not null, and otherwise `""` for columns 0-10 and `"-"` for columns 11-12. MapRow's contract is stated through this column table. |
| Rows.MapRows | index.js:51 | The mapping succeeds iff no element is `null`. It then has exactly as many rows as elements, and row i is the row of element i. |
| Rows.MapRowReadsOnlyColumns | index.js:51-65 | Two records that agree on the 13 column fields give equal rows. No other field influences a row. |
| Rows.SparseRecordExample | index.js:52-64 | `{shop_name: "A", today_available: 5}` maps to `["A", "", 5, "", "", "", "", "", "", "", "", "-", "-"]`. |
| Rows.FalsyValuesKeptExample | index.js:52-64 | `0`, `false` and `""` are written as they are. Only `null` and absent fields take the default. |
| Fetch.FetchRows | index.js:21-67 | A network error, a status outside 200-299 (carrying the status), an unparsable body, and a body that is not an object with a `data` array each fail in their own way, and so does a `null` element of `data`. Success holds iff the response is ok, the body is an object whose `data` is an array, and no element is `null`. The payload's range is then WRITE_RANGE, and its rows are the element-wise mapping of `data`. Every failure leads to exit status 2. |
| Fetch.ShapeCheckAcceptsOnlyDataObjects | index.js:38-40 | The shape guard lets a body through iff it is an object whose `data` is an array. Falsy bodies, numbers, strings, booleans and arrays are refused. |
| Pipeline.UpdateSheet | index.js:70-90 | The stage succeeds iff authentication, clear and update all succeed. It then issues exactly a clear of CLEAR_RANGE and then a `RAW` update of the payload's rows at the payload's range, both on SHEET_ID. Every update directly follows that clear. On an authentication failure nothing is issued. A rejected clear issues only the clear. Otherwise the clear and the update are both issued whatever the update's answer, and each failure is reported by its own kind. |
| Pipeline.Run | index.js:93-104 | The exit status is 0, 1 or 2. Status 1 occurs iff a required setting is missing, and then nothing is issued. Status 0 occurs iff every stage succeeds, and then the trace is exactly [GET, clear of CLEAR_RANGE, RAW update at WRITE_RANGE with the mapped rows]. Any failure after configuration exits with 2. A fetch failure issues only the GET and reports that failure. After a successful fetch the trace is the GET followed by exactly the requests of the sheet stage, and the run reports that stage's failure. An update is always directly preceded by the clear. |
| Pipeline.SuccessWritesEveryRecord | index.js:93-97 | After a successful run the body was an object with a `data` array. The written rows number exactly the records, and row i is the mapping of record i. |
| Pipeline.NullRecordAbortsRun | index.js:51-52 | A `null` element in an otherwise valid `data` array makes the run exit with status 2. The failure is the null record, and only the GET request was issued. |

## Left out

- The HTTP request itself (index.js:22-29). It appears only as an effect carrying the URL and the API key. The `Accept` and `X-API-KEY` headers are not modelled separately.
- JSON text parsing (index.js:35). The body is an input: either a parsed value or unparsable. Objects are maps, so a key that appears twice in the text is assumed to have been resolved by the parser. Numbers are exact reals: the program only copies them, and 64-bit floating point rounding is not modelled. Strings are sequences of Unicode scalar values, so a JSON string holding a lone surrogate escape such as `"\ud800"` cannot be represented; the program only copies such values.
- Google authentication and client construction (index.js:71-75). They are reduced to one boolean answer. A failure exits with 2 before the clear, and no effect is recorded for it.
- The spreadsheet calls (index.js:78-90). They are effect records plus one boolean answer each. The service's range semantics are not modelled, so the claim that re-running with the same source data leaves the same sheet is not stated. The model does state that identical inputs issue identical requests, because `Run` is a function.
- Console logging (index.js:15-17, 94-98, 102) and the mechanics of `process.exit`. Exits are the `exitCode` of the outcome.
- `async`/`await`: the run is strictly sequential, and the trace order is the await order.
