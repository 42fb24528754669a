# IoT dashboard backend: the sensor reading history

The backend of the IoT dashboard (`backend/server.js`) receives sensor
readings from an ESP32 device and serves them to the dashboard. It keeps
them in memory. This project models that reading history and its three
HTTP handlers in Dafny:

- `POST /api/sensor` checks that the body has both `timeOccurred` and `angle`.
  If it does, the handler builds a reading and puts it at the head of the
  history. It then cuts the history to its newest `MAX_READINGS` (100) entries.
- `GET /api/sensor` returns the count and the whole history, newest first.
- `GET /api/sensor/latest` returns the head of the history, or `null` when
  the history is empty.

Files:

- `wrappers.dfy` holds the `Option` and `Result` datatypes.
- `sensor_server.dfy` (module `SensorServer`) holds the rest:
  - the data model: `Reading`, the JSON values of a request body, and the POST answer;
  - the pure specification: `Accept` (validation), `Insert` (unshift, then truncate),
    `Newest`, `Step`/`Replay`/`Accepted` over a run of requests, and `History`
    over a run of insertions;
  - the lemmas about that specification;
  - the class `SensorStore`. Its field `readings` is the module-level
    `sensorReadings` array. Its methods `Post`, `List` and `Latest` are the
    three handlers.

The history is a `seq<Reading>` field that `Post` reassigns. The source
also reassigns the variable when it truncates. `Valid()` is the bound
`|readings| <= MAX_READINGS`: the constructor establishes it and every
`Post` keeps it.

Inputs taken as parameters:

- `Post` receives the values of `Date.now()` and `new Date().toISOString()`
  as the parameters `now` and `receivedAt`.
- `Post` receives JavaScript's `parseFloat` as the function parameter
  `parseFloat`. Its result is `None` where `parseFloat` throws: its first step
  converts the angle to a string, and that throws for an object without a
  usable `toString`, such as `{"toString": 1}`.
- `Post` receives JavaScript's string conversion of the time label as the
  function parameter `toText`. The log line (backend/server.js:39) applies it,
  and its result is `None` where the conversion throws.
- A JavaScript number is a `Float`: the bit pattern of a 64-bit double.
  The history never computes with it.
- A body field is an `Option<JsonValue>`. `None` means the field is
  absent, which is JavaScript's `undefined`.

Behaviours of the code worth knowing:

- The only check is `=== undefined`, so a field sent as JSON `null` passes
  validation. A `null` time label is stored as `JNull`.
- The 400 answer always has the same message, which names both fields. It
  does not say which field was missing.
- A throw in the handler makes Express answer 500. When `parseFloat` throws,
  nothing has been inserted yet. When the log line throws, the reading is
  already in the history, so the client gets a 500 for a post that was stored.
- The id is the clock value passed in. Nothing here makes ids unique, and
  the model does not claim that they are.

## Model

| member | source | states |
|---|---|---|
| `SensorServer.Accept` | backend/server.js:17-30 | a payload builds a reading exactly when both `timeOccurred` and `angle` are present and `parseFloat` does not throw on the angle; the error is MissingFields exactly when a field is absent; an accepted reading keeps `timeOccurred` exactly as sent, has `parseFloat` of the sent angle, and takes its id and receipt time from the clock |
| `SensorServer.PostResponse.Status` | backend/server.js:20-41 | an accepted post answers 201, a post missing a field 400, and a post whose handler throws 500 |
| `SensorServer.Insert` | backend/server.js:32-37 | after an insertion the history has min(old length + 1, 100) readings; the new reading is at index 0 and every kept old reading moved one place later |
| `SensorServer.Newest` | backend/server.js:56-61 | no reading for an empty history, otherwise the reading at index 0 |
| `SensorServer.Step` | backend/server.js:16-37 | the history after one POST: unchanged when no reading is built (a field absent or `parseFloat` throwing); otherwise the built reading is at index 0, followed by the first min(|old|, 99) readings of the old history, even if the log line throws afterwards; the bound of 100 is kept |
| `SensorServer.Replay` | backend/server.js:12-45 | the history after a run of POSTs from the empty start-up history; it never holds more than 100 readings |
| `SensorServer.Accepted` | backend/server.js:19-30 | the readings that a run of POSTs builds, in arrival order; at most one per request |
| `SensorServer.History` | backend/server.js:12-37 | the history after a run of insertions from empty; it holds at most as many readings as were inserted and at most 100 |
| `SensorServer.LatestAfterInsert` | backend/server.js:32-60 | the reading just inserted is the one the latest-reading query returns |
| `SensorServer.EvictsOnlyOldest` | backend/server.js:32-37 | for a history within capacity, insertion gives `[x] + old[..min(|old|, 99)]`; the old history is the kept part followed by at most one dropped reading, its oldest |
| `SensorServer.HistoryWindow` | backend/server.js:12-37 | after N insertions from the empty history it holds min(N, 100) readings, and index i holds the i-th newest insertion |
| `SensorServer.NewerBeforeOlder` | backend/server.js:32-37 | a reading is still retained exactly when fewer than 100 readings were inserted after it; of two retained readings the later one comes first |
| `SensorServer.ReplayIsHistory` | backend/server.js:16-45 | a run of posts leaves the same history as inserting only the readings they built, so a post answered 400, or 500 because `parseFloat` threw, leaves no trace |
| `SensorServer.ReplayBounded` | backend/server.js:12-37 | after any run of posts from start-up the history holds min(accepted posts, 100) readings, never more than 100 |
| `SensorServer.SensorStore.constructor` | backend/server.js:12-13 | the history starts empty, within the bound |
| `SensorServer.SensorStore.Post` | backend/server.js:16-45 | a post missing a field answers 400 with the fixed message and leaves the history unchanged; a post whose angle `parseFloat` throws on answers 500 and leaves the history unchanged; any other post makes the history `[reading] + old[..min(|old|, 99)]` and answers 201 with that reading, or 500 if the log line throws on the time label; the bound of 100 is kept |
| `SensorServer.SensorStore.List` | backend/server.js:48-53 | returns the history itself, newest first, with a count equal to its length and at most 100; the history is not changed |
| `SensorServer.SensorStore.Latest` | backend/server.js:56-61 | returns null exactly when the history is empty, otherwise its reading at index 0; the history is not changed |

## Left out

- Express, CORS and JSON middleware, `app.listen` and the start-up banner (backend/server.js:1-9, 68-82): framework plumbing and I/O.
- The `/api/health` endpoint (backend/server.js:64-66): it only reports the wall-clock time.
- `Date.now()` and `toISOString()` (backend/server.js:26, 29): clock reads, passed in as parameters.
- `parseFloat` (backend/server.js:28): JavaScript number parsing and NaN, passed in as a function parameter. The model does not describe which inputs it parses or throws on.
- The string conversion in the log line (backend/server.js:39): passed in as a function parameter. The model does not describe which values it throws on. The text of the log line is left out.
- The body of Express's 500 answer: it is framework output, so `ServerError` carries nothing.
- The body parser's handling of malformed JSON: it happens before the handler runs.
- `SensorServer.SensorStore.Post`: takes the request body as a parsed object. A post with no body, or without a JSON content type, then has both fields absent and answers 400; that is Express 4, whose `express.json()` always sets `req.body` to at least `{}`. Under Express 5 `req.body` stays undefined for such a post, so the destructuring at backend/server.js:17 throws and the answer is 500 with the history unchanged. The Express version is not part of this model.
- `SensorServer.Accept`: a `JString` holds Unicode scalar values, so a JSON string with a lone UTF-16 surrogate (such as `"\ud800"`) has no `JsonValue`. "Kept exactly as sent" covers every time label the model can represent.
- Concurrency: Node runs the handlers one at a time on its event loop, so each handler is one atomic step of the model.
- The dashboard (frontend/src/App.jsx): React rendering, polling with `fetch`, the gauge geometry and number formatting are UI code. The frontend is not part of this model.
