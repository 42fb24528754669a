/** The in-memory reading history of the IoT dashboard backend: a device posts
    sensor readings, the server keeps the newest MAX_READINGS of them, newest
    first, and dashboards read the whole list or only the newest reading. */
module SensorServer {
  import opened Wrappers

  /** Capacity of the history: older readings are dropped beyond it. */
  const MAX_READINGS: nat := 100

  /** Body of the 400 answer to a payload that lacks a required field. */
  const MISSING_FIELDS_MESSAGE: string := "Missing required fields: timeOccurred and angle"

  /** Message of the 201 answer to an accepted payload. */
  const RECEIVED_MESSAGE: string := "Data received successfully"

  function Min(a: int, b: int): (m: int) { if a < b then a else b }

  // ---------------------------------------------------------------------------
  // Data model
  // ---------------------------------------------------------------------------

  /** A JavaScript number, kept as the bit pattern of its IEEE-754 double; the
      history never computes with it. */
  datatype Float = Float(bits: bv64)

  /** A value of the JSON request body. A field that the body does not have at
      all is `None` in an `Option<JsonValue>`; `JNull` is a field that is there. */
  datatype JsonValue =
    | JNull
    | JBool(b: bool)
    | JNumber(n: Float)
    | JString(s: string)
    | JArray(items: seq<JsonValue>)
    | JObject(members: seq<(string, JsonValue)>)

  /** One stored sensor event: the server's clock tick as id, the time label
      the device sent, the angle as a number, and the server's receipt time. */
  datatype Reading = Reading(id: int, timeOccurred: JsonValue, angle: Float, receivedAt: string)

  /** Why a request builds no reading: a required field is absent (a 400
      answer), or converting the angle to a string throws (a 500 answer). */
  datatype IngestError = MissingFields | AngleNotConvertible

  /** What POST /api/sensor answers. A `ServerError` is the 500 that Express
      sends when the handler throws. */
  datatype PostResponse =
    | Created(message: string, reading: Reading)
    | BadRequest(error: string)
    | ServerError
  {
    /** The HTTP status code of the answer. */
    function Status(): (code: int)
      ensures code == 201 <==> Created?
      ensures code == 400 <==> BadRequest?
      ensures code == 500 <==> ServerError?
    {
      match this
      case Created(_, _) => 201
      case BadRequest(_) => 400
      case ServerError => 500
    }
  }

  /** One POST /api/sensor call: the two body fields, each possibly absent,
      and the two clock readings the handler takes (`Date.now()` and the ISO
      form of `new Date()`). */
  datatype Request = Request(timeOccurred: Option<JsonValue>, angle: Option<JsonValue>,
                             now: int, receivedAt: string)

  // ---------------------------------------------------------------------------
  // Specification of one request
  // ---------------------------------------------------------------------------

  /** Validation and construction of a reading. An absent field is refused;
      `parseFloat`, which is `None` where JavaScript's `parseFloat` throws
      (its argument has no usable string conversion), refuses the angle.
      The time label is kept exactly as sent. */
  function Accept(timeOccurred: Option<JsonValue>, angle: Option<JsonValue>,
                  parseFloat: JsonValue -> Option<Float>, now: int, receivedAt: string): (r: Result<Reading, IngestError>)
    ensures r.Ok? <==> timeOccurred.Some? && angle.Some? && parseFloat(angle.value).Some?
    ensures r == Err(MissingFields) <==> timeOccurred.None? || angle.None?
    ensures r.Ok? ==> r.value.timeOccurred == timeOccurred.value
    ensures r.Ok? ==> r.value.angle == parseFloat(angle.value).value
    ensures r.Ok? ==> r.value.id == now && r.value.receivedAt == receivedAt
  {
    if timeOccurred.None? || angle.None? then Err(MissingFields)
    else
      match parseFloat(angle.value)
      case None => Err(AngleNotConvertible)
      case Some(a) => Ok(Reading(now, timeOccurred.value, a, receivedAt))
  }

  /** The history after a reading is put at its head: the new reading first,
      then the old history shifted by one place, cut at the capacity. */
  function Insert(s: seq<Reading>, x: Reading): (r: seq<Reading>)
    ensures |r| == Min(|s| + 1, MAX_READINGS)
    ensures r[0] == x
    ensures forall i :: 1 <= i < |r| ==> r[i] == s[i - 1]
  {
    var grown := [x] + s;
    if |grown| > MAX_READINGS then grown[..MAX_READINGS] else grown
  }

  /** The answer of GET /api/sensor/latest: the head of the history, if any. */
  function Newest(s: seq<Reading>): (r: Option<Reading>)
    ensures r.None? <==> s == []
    ensures r.Some? ==> r.value == s[0]
  {
    if |s| == 0 then None else Some(s[0])
  }

  /** The history after one request: unchanged when the request builds no
      reading. A reading once built is inserted even if the handler throws
      afterwards, in its log line. */
  function Step(s: seq<Reading>, req: Request, parseFloat: JsonValue -> Option<Float>): (r: seq<Reading>)
    ensures |s| <= MAX_READINGS ==> |r| <= MAX_READINGS
    ensures var a := Accept(req.timeOccurred, req.angle, parseFloat, req.now, req.receivedAt);
      (a.Err? ==> r == s) && (a.Ok? ==> |r| == Min(|s| + 1, MAX_READINGS) && r[0] == a.value)
    ensures r != s ==> 1 <= |r| <= |s| + 1 && r[1..] == s[..|r| - 1]
  {
    match Accept(req.timeOccurred, req.angle, parseFloat, req.now, req.receivedAt)
    case Ok(reading) => Insert(s, reading)
    case Err(_) => s
  }

  // ---------------------------------------------------------------------------
  // Specification of a run of requests, from the empty history at start-up
  // ---------------------------------------------------------------------------

  /** The history after the given requests, in arrival order. */
  function Replay(reqs: seq<Request>, parseFloat: JsonValue -> Option<Float>): (r: seq<Reading>)
    ensures |r| <= MAX_READINGS
  {
    if reqs == [] then []
    else Step(Replay(reqs[..|reqs| - 1], parseFloat), reqs[|reqs| - 1], parseFloat)
  }

  /** The readings built from the accepted requests, in arrival order. */
  function Accepted(reqs: seq<Request>, parseFloat: JsonValue -> Option<Float>): (r: seq<Reading>)
    ensures |r| <= |reqs|
  {
    if reqs == [] then []
    else
      var last := reqs[|reqs| - 1];
      Accepted(reqs[..|reqs| - 1], parseFloat) +
        match Accept(last.timeOccurred, last.angle, parseFloat, last.now, last.receivedAt)
        case Ok(reading) => [reading]
        case Err(_) => []
  }

  /** The history after the given readings were inserted, oldest first. */
  function History(posts: seq<Reading>): (h: seq<Reading>)
    ensures |h| <= |posts| && |h| <= MAX_READINGS
  {
    if posts == [] then []
    else Insert(History(posts[..|posts| - 1]), posts[|posts| - 1])
  }

  // ---------------------------------------------------------------------------
  // Properties of the specification
  // ---------------------------------------------------------------------------

  /** A reading is the newest one right after it is inserted. */
  lemma LatestAfterInsert(s: seq<Reading>, x: Reading)
    ensures Newest(Insert(s, x)) == Some(x)
  {
  }

  /** Inserting into a history within the capacity drops at most its oldest
      (last) reading; the others stay, in the same order, one place later. */
  lemma EvictsOnlyOldest(s: seq<Reading>, x: Reading)
    requires |s| <= MAX_READINGS
    ensures var r := Insert(s, x); r == [x] + s[..Min(|s|, MAX_READINGS - 1)]
    ensures var r := Insert(s, x); r[1..] == s[..|r| - 1] && |s| <= |r|
  {
    var r := Insert(s, x);
    assert r[1..] == s[..|r| - 1];
  }

  /** After N insertions into the empty history it holds min(N, MAX_READINGS)
      readings: the newest ones, newest first. */
  lemma {:induction false} HistoryWindow(posts: seq<Reading>)
    ensures |History(posts)| == Min(|posts|, MAX_READINGS)
    ensures forall i :: 0 <= i < |History(posts)| ==> History(posts)[i] == posts[|posts| - 1 - i]
  {
    if posts != [] {
      var init := posts[..|posts| - 1];
      HistoryWindow(init);
      var h := History(posts);
      forall i | 0 <= i < |h| ensures h[i] == posts[|posts| - 1 - i] {
        if i > 0 {
          assert h[i] == History(init)[i - 1];
          assert init[|init| - 1 - (i - 1)] == posts[|posts| - 1 - i];
        }
      }
    }
  }

  /** Of two retained readings, the one inserted later comes first; a reading
      is retained exactly when fewer than MAX_READINGS came after it. */
  lemma NewerBeforeOlder(posts: seq<Reading>, older: nat, newer: nat)
    requires older < newer < |posts|
    ensures var h, po, pn := History(posts), |posts| - 1 - older, |posts| - 1 - newer;
      (po < |h| <==> |posts| - older <= MAX_READINGS) &&
      (po < |h| ==> pn < po && h[pn] == posts[newer] && h[po] == posts[older])
  {
    HistoryWindow(posts);
  }

  /** Replaying requests gives the history of the accepted readings alone:
      refused requests leave no trace. */
  lemma {:induction false} ReplayIsHistory(reqs: seq<Request>, parseFloat: JsonValue -> Option<Float>)
    ensures Replay(reqs, parseFloat) == History(Accepted(reqs, parseFloat))
  {
    if reqs != [] {
      var init := reqs[..|reqs| - 1];
      var last := reqs[|reqs| - 1];
      ReplayIsHistory(init, parseFloat);
      var before := Accepted(init, parseFloat);
      match Accept(last.timeOccurred, last.angle, parseFloat, last.now, last.receivedAt)
      case Ok(reading) =>
        var after := Accepted(reqs, parseFloat);
        assert after == before + [reading];
        assert after[..|after| - 1] == before;
      case Err(_) =>
        assert Accepted(reqs, parseFloat) == before;
        assert Replay(reqs, parseFloat) == Replay(init, parseFloat);
    }
  }

  /** The history never holds more than MAX_READINGS readings, and holds
      min(N, MAX_READINGS) after N accepted requests, whatever was refused. */
  lemma ReplayBounded(reqs: seq<Request>, parseFloat: JsonValue -> Option<Float>)
    ensures |Replay(reqs, parseFloat)| == Min(|Accepted(reqs, parseFloat)|, MAX_READINGS)
    ensures |Replay(reqs, parseFloat)| <= MAX_READINGS
  {
    ReplayIsHistory(reqs, parseFloat);
    HistoryWindow(Accepted(reqs, parseFloat));
  }

  // ---------------------------------------------------------------------------
  // The store
  // ---------------------------------------------------------------------------

  /** The process-wide reading history and the three handlers that use it. */
  class SensorStore {
    /** Newest first. */
    var readings: seq<Reading>

    ghost predicate Valid()
      reads this
    {
      |readings| <= MAX_READINGS
    }

    /** The history is empty when the server starts. */
    constructor ()
      ensures Valid() && readings == []
    {
      readings := [];
    }

    /** POST /api/sensor. `toText` is JavaScript's string conversion as the
        log line applies it to the time label: `None` where it throws. The log
        line converts the angle too, but `parseFloat` already did that. */
    method Post(timeOccurred: Option<JsonValue>, angle: Option<JsonValue>,
                parseFloat: JsonValue -> Option<Float>, toText: JsonValue -> Option<string>,
                now: int, receivedAt: string) returns (res: PostResponse)
      requires Valid()
      modifies this
      ensures Valid()
      ensures readings == Step(old(readings), Request(timeOccurred, angle, now, receivedAt), parseFloat)
      ensures res.BadRequest? <==> timeOccurred.None? || angle.None?
      ensures res.BadRequest? ==> res.error == MISSING_FIELDS_MESSAGE && readings == old(readings)
      ensures Accept(timeOccurred, angle, parseFloat, now, receivedAt) == Err(AngleNotConvertible) ==>
        res == ServerError && readings == old(readings)
      ensures Accept(timeOccurred, angle, parseFloat, now, receivedAt).Ok? ==>
        var reading := Accept(timeOccurred, angle, parseFloat, now, receivedAt).value;
        && readings == [reading] + old(readings)[..Min(|old(readings)|, MAX_READINGS - 1)]
        && res == if toText(timeOccurred.value).Some? then Created(RECEIVED_MESSAGE, reading) else ServerError
    {
      if timeOccurred.None? || angle.None? {
        return BadRequest(MISSING_FIELDS_MESSAGE);
      }
      var parsed := parseFloat(angle.value);
      if parsed.None? {
        return ServerError;
      }
      var reading := Reading(now, timeOccurred.value, parsed.value, receivedAt);
      readings := [reading] + readings;
      if |readings| > MAX_READINGS {
        readings := readings[..MAX_READINGS];
      }
      EvictsOnlyOldest(old(readings), reading);
      if toText(timeOccurred.value).None? {
        return ServerError;
      }
      res := Created(RECEIVED_MESSAGE, reading);
    }

    /** GET /api/sensor: the count and the whole history, newest first. */
    method List() returns (count: nat, all: seq<Reading>)
      requires Valid()
      ensures all == readings
      ensures count == |all| && count <= MAX_READINGS
    {
      count := |readings|;
      all := readings;
    }

    /** GET /api/sensor/latest: the newest reading, or null when there is none. */
    method Latest() returns (latest: Option<Reading>)
      ensures latest == Newest(readings)
    {
      if |readings| == 0 {
        return None;
      }
      latest := Some(readings[0]);
    }
  }
}
