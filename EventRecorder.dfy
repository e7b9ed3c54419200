/** EventRecorder.java: the Pinpoint analytics event queue. The local event
    table (PinpointDBUtil, not part of this model) is a sequence of rows,
    oldest first; a cursor over it is a snapshot of that sequence and a
    position in it. The Pinpoint service is a parameter that gives the
    outcome of each submission, and JSON parsing of a stored message is a
    parameter that may fail. */
module EventRecorder {
  import opened Wrappers
  import opened Json

  const DefaultMaxSubmissionSize := 1024 * 100
  const DefaultMaxPendingSize := 5 * 1024 * 1024
  const DatabaseIdKey := "databaseId"
  const EventIdKey := "event_id"
  const DefaultMaxSubmissionsAllowed := 3
  const ServiceDefinedMaxEventsPerBatch := 100
  const MinimumPendingSize := 16 * 1024

  /** One row of the event table; each column may read as NULL. */
  datatype EventRow = EventRow(id: Option<int>, size: Option<int>, json: Option<string>)

  datatype AnalyticsEvent = AnalyticsEvent(eventType: string, json: string)

  // --------------------------------------------------------------- eviction

  /** The pending-size budget `recordEvent` enforces: the configured value
      (5 MiB when absent), but never less than 16 KiB. */
  function PendingLimit(configured: Option<int>): (limit: int)
    ensures limit >= MinimumPendingSize
    ensures limit >= configured.GetOr(DefaultMaxPendingSize)
    ensures limit == configured.GetOr(DefaultMaxPendingSize) || limit == MinimumPendingSize
  {
    var size := configured.GetOr(DefaultMaxPendingSize);
    if size < MinimumPendingSize then MinimumPendingSize else size
  }

  /** The table's total size: its rows' sizes, a NULL size counting 0. */
  function TotalSize(rows: seq<EventRow>): int {
    if rows == [] then 0 else rows[0].size.GetOr(0) + TotalSize(rows[1..])
  }

  /** The table after deleting its oldest rows while it is over the limit. */
  function Evicted(rows: seq<EventRow>, limit: int): seq<EventRow>
  {
    if rows != [] && TotalSize(rows) > limit then Evicted(rows[1..], limit) else rows
  }

  /** Eviction keeps the newest rows: what remains is a suffix of the table. */
  lemma {:induction false} EvictedKeepsNewest(rows: seq<EventRow>, limit: int)
    ensures |Evicted(rows, limit)| <= |rows|
    ensures Evicted(rows, limit) == rows[|rows| - |Evicted(rows, limit)|..]
  {
    if rows != [] && TotalSize(rows) > limit {
      EvictedKeepsNewest(rows[1..], limit);
    }
  }

  /** Eviction brings the table within a non-negative budget ... */
  lemma {:induction false} EvictedFits(rows: seq<EventRow>, limit: int)
    requires limit >= 0
    ensures TotalSize(Evicted(rows, limit)) <= limit
  {
    if rows != [] && TotalSize(rows) > limit {
      EvictedFits(rows[1..], limit);
    }
  }

  /** ... and deletes no more than it must: with one more of the deleted
      rows back, the table would be over the budget. */
  lemma {:induction false} EvictedIsMinimal(rows: seq<EventRow>, limit: int)
    ensures var kept := |Evicted(rows, limit)|;
      kept < |rows| ==> TotalSize(rows[|rows| - kept - 1..]) > limit
  {
    if rows != [] && TotalSize(rows) > limit {
      EvictedIsMinimal(rows[1..], limit);
      EvictedKeepsNewest(rows[1..], limit);
      var kept := |Evicted(rows[1..], limit)|;
      if kept < |rows[1..]| {
        assert rows[1..][|rows[1..]| - kept - 1..] == rows[|rows| - kept - 1..];
      } else {
        assert rows[|rows| - kept - 1..] == rows;
      }
    }
  }

  /** A table within the budget is left as it is. */
  lemma EvictedWithinLimit(rows: seq<EventRow>, limit: int)
    requires TotalSize(rows) <= limit
    ensures Evicted(rows, limit) == rows
  {
  }

  // ---------------------------------------------------------------- reading

  /** What the delete map records for a row: its id and, when it can be
      trusted, its size. */
  datatype DeleteEntry = DeleteEntry(id: int, size: Option<int>)

  /** readEventFromCursor on one row: the event (if the row yields one), the
      entry it adds to the delete map, and the stored message's length. */
  datatype RowRead = RowRead(event: Option<JsonObject>, toDelete: Option<DeleteEntry>, messageLength: nat)

  function ReadEventFromCursor(row: EventRow, parse: string -> Option<JsonObject>): (r: RowRead)
    ensures r.toDelete.Some? <==> row.id.Some?
    ensures r.toDelete.Some? ==> r.toDelete.value.id == row.id.value
    ensures r.event.Some? <==> row.id.Some? && row.json.Some? && parse(row.json.value).Some?
    ensures r.event.Some? ==> r.event.value == parse(row.json.value).value[DatabaseIdKey := JInt(row.id.value)]
    ensures r.event.Some? ==> r.messageLength == |row.json.value|
    ensures r.toDelete.Some? && r.toDelete.value.size.Some? ==> row.size == r.toDelete.value.size
    ensures r.toDelete.Some? && r.toDelete.value.size.None? && row.size.Some? ==>
      row.json.Some? && |row.json.value| != row.size.value
  {
    if row.id.None? then RowRead(None, None, 0)
    else
      var rowId := row.id.value;
      if row.json.None? then RowRead(None, Some(DeleteEntry(rowId, row.size)), 0)
      else
        var message := row.json.value;
        var jsonObject := parse(message);
        var event := if jsonObject.Some? then Some(jsonObject.value[DatabaseIdKey := JInt(rowId)]) else None;
        var size := if row.size.Some? && |message| != row.size.value then None else row.size;
        RowRead(event, Some(DeleteEntry(rowId, size)), |message|)
  }

  // --------------------------------------------------------------- batching

  /** How a batch measures an event against the size limit: as written, by
      `JSONObject.length()`, which is the object's number of keys; as
      evidently intended, by the length of the stored message. */
  datatype Measure = KeyCount | MessageLength

  function EventLength(m: Measure, r: RowRead): int
    requires r.event.Some?
  {
    match m
    case KeyCount => |r.event.value.Keys|
    case MessageLength => r.messageLength
  }

  /** A batch in progress: the events, the delete map, the accumulated
      request size under the measure, and each event's message length. */
  datatype Batch = Batch(events: seq<JsonObject>, toDelete: map<int, Option<int>>, requestSize: int, lengths: seq<nat>)

  const EmptyBatch := Batch([], map[], 0, [])

  function Step(b: Batch, r: RowRead, m: Measure): Batch {
    var added := if r.event.Some?
      then b.(events := b.events + [r.event.value], requestSize := b.requestSize + EventLength(m, r),
              lengths := b.lengths + [r.messageLength])
      else b;
    if r.toDelete.Some? then added.(toDelete := added.toDelete[r.toDelete.value.id := r.toDelete.value.size]) else added
  }

  predicate Full(b: Batch, maxRequestSize: int) {
    b.requestSize > maxRequestSize || |b.events| >= ServiceDefinedMaxEventsPerBatch
  }

  datatype Gathered = Gathered(batch: Batch, last: int)

  /** getBatchOfEvents from the row at `i` on, continuing batch `b`: read
      the row, stop when the batch is full or the cursor has no next row. */
  function Gather(rows: seq<EventRow>, i: int, b: Batch, maxRequestSize: int, parse: string -> Option<JsonObject>,
                  m: Measure): (g: Gathered)
    requires 0 <= i < |rows|
    ensures i <= g.last < |rows|
    decreases |rows| - i
  {
    var next := Step(b, ReadEventFromCursor(rows[i], parse), m);
    if Full(next, maxRequestSize) || i + 1 == |rows| then Gathered(next, i)
    else Gather(rows, i + 1, next, maxRequestSize, parse, m)
  }

  /** One unfolding of Gather. */
  lemma GatherStep(rows: seq<EventRow>, i: int, b: Batch, maxRequestSize: int, parse: string -> Option<JsonObject>,
                   m: Measure)
    requires 0 <= i < |rows|
    ensures var next := Step(b, ReadEventFromCursor(rows[i], parse), m);
      Gather(rows, i, b, maxRequestSize, parse, m)
        == if Full(next, maxRequestSize) || i + 1 == |rows| then Gathered(next, i)
           else Gather(rows, i + 1, next, maxRequestSize, parse, m)
  {
  }

  /** A batch never holds more than 100 events, and the cursor ends on a
      row at or after where it started. */
  lemma {:induction false} GatherBounded(rows: seq<EventRow>, i: int, b: Batch, maxRequestSize: int,
                                         parse: string -> Option<JsonObject>, m: Measure)
    requires 0 <= i < |rows|
    requires |b.events| < ServiceDefinedMaxEventsPerBatch
    ensures |Gather(rows, i, b, maxRequestSize, parse, m).batch.events| <= ServiceDefinedMaxEventsPerBatch
    ensures i <= Gather(rows, i, b, maxRequestSize, parse, m).last < |rows|
    decreases |rows| - i
  {
    var next := Step(b, ReadEventFromCursor(rows[i], parse), m);
    if !(Full(next, maxRequestSize) || i + 1 == |rows|) {
      GatherBounded(rows, i + 1, next, maxRequestSize, parse, m);
    }
  }

  /** Some row of the table carries this id. */
  predicate HasId(rows: seq<EventRow>, id: int) {
    exists k :: 0 <= k < |rows| && rows[k].id == Some(id)
  }

  /** Every row the batch read that has an id goes into the delete map,
      whether or not its message parsed; entries already there stay. */
  lemma {:induction false} GatherDeletesEveryReadRow(rows: seq<EventRow>, i: int, b: Batch, maxRequestSize: int,
                                                     parse: string -> Option<JsonObject>, m: Measure)
    requires 0 <= i < |rows|
    ensures var g := Gather(rows, i, b, maxRequestSize, parse, m);
      && i <= g.last < |rows|
      && (forall k :: i <= k <= g.last && rows[k].id.Some? ==> rows[k].id.value in g.batch.toDelete)
      && (forall id :: id in b.toDelete ==> id in g.batch.toDelete)
    decreases |rows| - i
  {
    var next := Step(b, ReadEventFromCursor(rows[i], parse), m);
    if !(Full(next, maxRequestSize) || i + 1 == |rows|) {
      GatherDeletesEveryReadRow(rows, i + 1, next, maxRequestSize, parse, m);
    }
  }

  /** Nothing but the ids of read rows goes into the delete map. */
  lemma {:induction false} GatherDeletesOnlyReadRows(rows: seq<EventRow>, i: int, b: Batch, maxRequestSize: int,
                                                     parse: string -> Option<JsonObject>, m: Measure)
    requires 0 <= i < |rows|
    ensures var g := Gather(rows, i, b, maxRequestSize, parse, m);
      forall id :: id in g.batch.toDelete ==> id in b.toDelete || HasId(rows, id)
    decreases |rows| - i
  {
    var next := Step(b, ReadEventFromCursor(rows[i], parse), m);
    assert forall id :: id in next.toDelete ==> id in b.toDelete || HasId(rows, id) by {
      if rows[i].id.Some? {
        assert HasId(rows, rows[i].id.value);
      }
    }
    if !(Full(next, maxRequestSize) || i + 1 == |rows|) {
      GatherDeletesOnlyReadRows(rows, i + 1, next, maxRequestSize, parse, m);
    }
  }

  function Sum(s: seq<nat>): nat {
    if s == [] then 0 else Sum(s[..|s| - 1]) + s[|s| - 1]
  }

  /** Measured by message length, a batch stops at the first event that
      takes it over the limit: the events before the last one fit. */
  lemma {:induction false} GatherStopsAtFirstOverrun(rows: seq<EventRow>, i: int, b: Batch, maxRequestSize: int,
                                                     parse: string -> Option<JsonObject>)
    requires 0 <= i < |rows|
    requires b.requestSize == Sum(b.lengths) && b.requestSize <= maxRequestSize
    ensures var g := Gather(rows, i, b, maxRequestSize, parse, MessageLength).batch;
      && g.requestSize == Sum(g.lengths)
      && (g.lengths == [] || Sum(g.lengths[..|g.lengths| - 1]) <= maxRequestSize)
    decreases |rows| - i
  {
    var read := ReadEventFromCursor(rows[i], parse);
    var next := Step(b, read, MessageLength);
    if read.event.Some? {
      assert next.lengths[..|next.lengths| - 1] == b.lengths;
    } else if b.lengths != [] {
      assert Sum(b.lengths[..|b.lengths| - 1]) <= Sum(b.lengths);
    }
    if !(Full(next, maxRequestSize) || i + 1 == |rows|) {
      GatherStopsAtFirstOverrun(rows, i + 1, next, maxRequestSize, parse);
    }
  }

  function AcceptAnyMessage(message: string): Option<JsonObject> {
    Some(map[])
  }

  /** A stored event whose message is ten characters long. */
  function TenCharRow(id: int): EventRow {
    EventRow(Some(id), Some(10), Some("0123456789"))
  }

  lemma ReadTenCharRow(id: int)
    ensures var r := ReadEventFromCursor(TenCharRow(id), AcceptAnyMessage);
      && r.event == Some(map[DatabaseIdKey := JInt(id)]) && r.messageLength == 10
      && |r.event.value.Keys| == 1 && r.toDelete.Some?
  {
    assert map[DatabaseIdKey := JInt(id)].Keys == {DatabaseIdKey};
  }

  /** Counting keys, each of the three events adds one to the request size,
      so all three are read. */
  lemma KeyCountReadsAll()
    ensures var g := Gather([TenCharRow(1), TenCharRow(2), TenCharRow(3)], 0, EmptyBatch, 5, AcceptAnyMessage, KeyCount).batch;
      |g.events| == 3 && g.lengths == [10, 10, 10]
  {
    var rows := [TenCharRow(1), TenCharRow(2), TenCharRow(3)];
    ReadTenCharRow(1);
    ReadTenCharRow(2);
    ReadTenCharRow(3);
    var b1 := Step(EmptyBatch, ReadEventFromCursor(rows[0], AcceptAnyMessage), KeyCount);
    assert b1.requestSize == 1 && |b1.events| == 1 && b1.lengths == [10];
    var b2 := Step(b1, ReadEventFromCursor(rows[1], AcceptAnyMessage), KeyCount);
    assert b2.requestSize == 2 && |b2.events| == 2 && b2.lengths == [10, 10];
    var b3 := Step(b2, ReadEventFromCursor(rows[2], AcceptAnyMessage), KeyCount);
    assert |b3.events| == 3 && b3.lengths == [10, 10, 10];
    assert Gather(rows, 1, b1, 5, AcceptAnyMessage, KeyCount) == Gather(rows, 2, b2, 5, AcceptAnyMessage, KeyCount);
  }

  /** Measuring message lengths, the first event already exceeds the limit. */
  lemma MessageLengthStopsAtFirst()
    ensures |Gather([TenCharRow(1), TenCharRow(2), TenCharRow(3)], 0, EmptyBatch, 5, AcceptAnyMessage, MessageLength).batch.events| == 1
  {
    ReadTenCharRow(1);
    var c1 := Step(EmptyBatch, ReadEventFromCursor(TenCharRow(1), AcceptAnyMessage), MessageLength);
    assert c1.requestSize == 10 && |c1.events| == 1;
  }

  /** As written, three stored 10-character events fill a batch whose
      limit is 5: the limit counts keys (one per event), so the batch runs
      20 characters past the limit before its last event; measured by
      message length the batch stops after the first. */
  lemma KeyCountBatchOverruns()
    ensures var rows := [TenCharRow(1), TenCharRow(2), TenCharRow(3)];
      var asWritten := Gather(rows, 0, EmptyBatch, 5, AcceptAnyMessage, KeyCount).batch;
      var intended := Gather(rows, 0, EmptyBatch, 5, AcceptAnyMessage, MessageLength).batch;
      && |asWritten.events| == 3 && Sum(asWritten.lengths[..2]) == 20 && Sum(asWritten.lengths[..2]) > 5
      && |intended.events| == 1
  {
    KeyCountReadsAll();
    MessageLengthStopsAtFirst();
    assert [10, 10, 10][..2] == [10, 10];
    assert Sum([10, 10]) == 20 by { assert [10, 10][..1] == [10]; assert [10][..0] == []; }
  }

  /** getBatchOfEvents under either measure: `KeyCount` is the code as
      written, `MessageLength` the evident intent. The cursor is on a row
      when it is called. */
  method GetBatchOfEvents(rows: seq<EventRow>, start: int, maxRequestSize: int, parse: string -> Option<JsonObject>,
                          m: Measure)
    returns (events: seq<JsonObject>, toDelete: map<int, Option<int>>, last: int)
    requires 0 <= start < |rows|
    ensures var g := Gather(rows, start, EmptyBatch, maxRequestSize, parse, m);
      events == g.batch.events && toDelete == g.batch.toDelete && last == g.last
    ensures start <= last < |rows|
    ensures |events| <= ServiceDefinedMaxEventsPerBatch
  {
    events := [];
    toDelete := map[];
    var currentRequestSize := 0;
    ghost var lengths: seq<nat> := [];
    var i := start;
    GatherBounded(rows, start, EmptyBatch, maxRequestSize, parse, m);
    while true
      invariant start <= i < |rows|
      invariant Gather(rows, i, Batch(events, toDelete, currentRequestSize, lengths), maxRequestSize, parse, m)
             == Gather(rows, start, EmptyBatch, maxRequestSize, parse, m)
      decreases |rows| - i
    {
      ghost var before := Batch(events, toDelete, currentRequestSize, lengths);
      var read := ReadEventFromCursor(rows[i], parse);
      GatherStep(rows, i, before, maxRequestSize, parse, m);
      if read.event.Some? {
        currentRequestSize := currentRequestSize + EventLength(m, read);
        events := events + [read.event.value];
        lengths := lengths + [read.messageLength];
      }
      if read.toDelete.Some? {
        toDelete := toDelete[read.toDelete.value.id := read.toDelete.value.size];
      }
      assert Batch(events, toDelete, currentRequestSize, lengths) == Step(before, read, m);
      if currentRequestSize > maxRequestSize || |events| >= ServiceDefinedMaxEventsPerBatch || i + 1 == |rows| {
        last := i;
        return;
      }
      i := i + 1;
    }
  }

  // ------------------------------------------------------------- responses

  function UpperAscii(c: char): char {
    if 'a' <= c <= 'z' then (c as int - 32) as char else c
  }

  /** `String.equalsIgnoreCase`, folding ASCII letters only. */
  predicate EqualsIgnoreCase(a: string, b: string) {
    |a| == |b| && forall i :: 0 <= i < |a| ==> UpperAscii(a[i]) == UpperAscii(b[i])
  }

  /** The three error codes after which resending cannot help. */
  predicate IsRetryable(responseCode: string) {
    !(EqualsIgnoreCase(responseCode, "ValidationException")
      || EqualsIgnoreCase(responseCode, "SerializationException")
      || EqualsIgnoreCase(responseCode, "BadRequestException"))
  }

  /** Retryability does not depend on letter case. */
  lemma {:induction false} IsRetryableIgnoresCase(a: string, b: string)
    requires EqualsIgnoreCase(a, b)
    ensures IsRetryable(a) <==> IsRetryable(b)
  {
    forall c: string | EqualsIgnoreCase(a, c) ensures EqualsIgnoreCase(b, c) {
      forall i | 0 <= i < |b| ensures UpperAscii(b[i]) == UpperAscii(c[i]) {
        assert UpperAscii(a[i]) == UpperAscii(b[i]);
      }
    }
    forall c: string | EqualsIgnoreCase(b, c) ensures EqualsIgnoreCase(a, c) {
      forall i | 0 <= i < |a| ensures UpperAscii(a[i]) == UpperAscii(c[i]) {
        assert UpperAscii(a[i]) == UpperAscii(b[i]);
      }
    }
  }

  /** What processEventsResponse does with one submitted event. */
  datatype ItemVerdict =
    | Unreadable        // a JSONException while reading the event: skipped
    | Unanswered        // no item response for its event id: a NullPointerException escapes
    | Accepted          // delivered: stays in the delete map
    | Retry(id: int)    // retryable failure: removed from the delete map, so the row is kept
    | Rejected          // final failure: stays in the delete map

  function ItemVerdictOf(event: JsonObject, messages: map<string, string>): (v: ItemVerdict)
    ensures v.Retry? ==>
      && GetString(event, EventIdKey).Success? && GetString(event, EventIdKey).value in messages
      && var message := messages[GetString(event, EventIdKey).value];
      && !EqualsIgnoreCase(message, "Accepted") && IsRetryable(message)
      && DatabaseIdKey in event && event[DatabaseIdKey] == JInt(v.id)
    ensures v.Unanswered? <==> GetString(event, EventIdKey).Success? && GetString(event, EventIdKey).value !in messages
  {
    match GetString(event, EventIdKey)
    case Failure(_) => Unreadable
    case Success(eventId) =>
      if eventId !in messages then Unanswered
      else if EqualsIgnoreCase(messages[eventId], "Accepted") then Accepted
      else if IsRetryable(messages[eventId]) then
        match GetInt(event, DatabaseIdKey)
        case Success(id) => Retry(id)
        case Failure(_) => Unreadable
      else Rejected
  }

  predicate AllAnswered(events: seq<JsonObject>, messages: map<string, string>) {
    forall i :: 0 <= i < |events| ==> !ItemVerdictOf(events[i], messages).Unanswered?
  }

  /** The ids whose rows a response says to keep. */
  function RetainedIds(events: seq<JsonObject>, messages: map<string, string>): set<int> {
    if events == [] then {}
    else
      var v := ItemVerdictOf(events[|events| - 1], messages);
      RetainedIds(events[..|events| - 1], messages) + (if v.Retry? then {v.id} else {})
  }

  /** A retained id is the database id of an event whose response was a
      retryable failure. */
  lemma {:induction false} RetainedIdsAreRetried(events: seq<JsonObject>, messages: map<string, string>, id: int)
    requires id in RetainedIds(events, messages)
    ensures exists i :: 0 <= i < |events| && ItemVerdictOf(events[i], messages) == Retry(id)
  {
    var v := ItemVerdictOf(events[|events| - 1], messages);
    if !(v.Retry? && v.id == id) {
      RetainedIdsAreRetried(events[..|events| - 1], messages, id);
      var i :| 0 <= i < |events| - 1 && ItemVerdictOf(events[..|events| - 1][i], messages) == Retry(id);
      assert events[..|events| - 1][i] == events[i];
    }
  }

  /** processEventsResponse: walks the submitted events and takes out of the
      delete map every event whose item response is a retryable failure. */
  method ProcessEventsResponse(events: seq<JsonObject>, messages: map<string, string>, toDelete: map<int, Option<int>>)
    returns (r: Result<map<int, Option<int>>, string>)
    ensures r.Success? <==> AllAnswered(events, messages)
    ensures r.Success? ==> r.value == toDelete - RetainedIds(events, messages)
    ensures r.Failure? ==> r.error == NullPointer
  {
    var kept := toDelete;
    for i := 0 to |events|
      invariant AllAnswered(events[..i], messages)
      invariant kept == toDelete - RetainedIds(events[..i], messages)
    {
      assert events[..i + 1][..i] == events[..i];
      var verdict := ItemVerdictOf(events[i], messages);
      if verdict.Unanswered? {
        assert !AllAnswered(events, messages);
        return Failure(NullPointer);
      }
      if verdict.Retry? {
        kept := kept - {verdict.id};
      }
    }
    assert events[..|events|] == events;
    r := Success(kept);
  }

  /** The outcome of one putEvents call: the item responses for this
      endpoint (absent when the response has no entry for it, which throws
      a NullPointerException), a service exception with its error code, or
      a client exception, retryable when caused by an unknown host or a
      socket failure. */
  datatype PutOutcome =
    | Delivered(itemMessages: Option<map<string, string>>)
    | ServiceFailure(errorCode: string)
    | ClientFailure(retryableCause: bool)

  const NullPointer := "NullPointerException"

  /** submitEventsAndEndpoint: the delete map after one submission, or the
      exception that escaped. */
  function SubmissionResult(events: seq<JsonObject>, toDelete: map<int, Option<int>>, hasEndpoint: bool,
                            outcome: PutOutcome): (r: Result<map<int, Option<int>>, string>)
    ensures r.Success? ==> r.value.Keys <= toDelete.Keys
    ensures !hasEndpoint ==> r == Success(map[])
    ensures hasEndpoint && outcome.ServiceFailure? ==>
      r == Success(if IsRetryable(outcome.errorCode) then map[] else toDelete)
    ensures hasEndpoint && outcome.ClientFailure? ==>
      r == Success(if outcome.retryableCause then map[] else toDelete)
    ensures hasEndpoint && outcome.Delivered? ==>
      (r.Success? <==> outcome.itemMessages.Some? && AllAnswered(events, outcome.itemMessages.value))
    ensures hasEndpoint && outcome.Delivered? && r.Success? ==>
      r.value == toDelete - RetainedIds(events, outcome.itemMessages.value)
  {
    if !hasEndpoint then Success(map[])
    else match outcome
      case Delivered(itemMessages) =>
        if itemMessages.Some? && AllAnswered(events, itemMessages.value)
        then Success(toDelete - RetainedIds(events, itemMessages.value))
        else Failure(NullPointer)
      case ServiceFailure(errorCode) => Success(if IsRetryable(errorCode) then map[] else toDelete)
      case ClientFailure(retryableCause) => Success(if retryableCause then map[] else toDelete)
  }

  method SubmitEventsAndEndpoint(events: seq<JsonObject>, toDelete: map<int, Option<int>>, hasEndpoint: bool,
                                 outcome: PutOutcome)
    returns (r: Result<map<int, Option<int>>, string>)
    ensures r == SubmissionResult(events, toDelete, hasEndpoint, outcome)
  {
    if !hasEndpoint {
      return Success(map[]);
    }
    match outcome
    case Delivered(itemMessages) =>
      if itemMessages.None? {
        return Failure(NullPointer);
      }
      r := ProcessEventsResponse(events, itemMessages.value, toDelete);
    case ServiceFailure(errorCode) =>
      r := Success(if IsRetryable(errorCode) then map[] else toDelete);
    case ClientFailure(retryableCause) =>
      r := Success(if retryableCause then map[] else toDelete);
  }

  // ------------------------------------------------------------------ table

  /** The table after `deleteEvent` of every id in `ids`. */
  function Without(rows: seq<EventRow>, ids: set<int>): (r: seq<EventRow>)
    ensures |r| <= |rows|
  {
    if rows == [] then []
    else (if rows[0].id.Some? && rows[0].id.value in ids then [] else [rows[0]]) + Without(rows[1..], ids)
  }

  lemma {:induction false} WithoutTwice(rows: seq<EventRow>, a: set<int>, b: set<int>)
    ensures Without(Without(rows, a), b) == Without(rows, a + b)
  {
    if rows != [] {
      WithoutTwice(rows[1..], a, b);
      var rest := Without(rows[1..], a);
      var inA := rows[0].id.Some? && rows[0].id.value in a;
      var inB := rows[0].id.Some? && rows[0].id.value in b;
      if inA {
        assert Without(rows, a) == rest;
        assert Without(rows, a + b) == [] + Without(rows[1..], a + b);
      } else {
        assert Without(rows, a) == [rows[0]] + rest;
        assert ([rows[0]] + rest)[0] == rows[0];
        assert ([rows[0]] + rest)[1..] == rest;
        assert Without([rows[0]] + rest, b) == (if inB then [] else [rows[0]]) + Without(rest, b);
        assert Without(rows, a + b) == (if inB then [] else [rows[0]]) + Without(rows[1..], a + b);
      }
    }
  }

  lemma {:induction false} WithoutKeepsMembers(rows: seq<EventRow>, ids: set<int>, k: int)
    requires 0 <= k < |Without(rows, ids)|
    ensures exists j :: 0 <= j < |rows| && rows[j] == Without(rows, ids)[k]
  {
    var head := if rows[0].id.Some? && rows[0].id.value in ids then [] else [rows[0]];
    if k < |head| {
      assert Without(rows, ids)[k] == rows[0];
    } else {
      WithoutKeepsMembers(rows[1..], ids, k - |head|);
      var j :| 0 <= j < |rows[1..]| && rows[1..][j] == Without(rows[1..], ids)[k - |head|];
      assert rows[j + 1] == Without(rows, ids)[k];
    }
  }

  /** Rows with ids, in increasing id order, all below `bound`. */
  predicate Ordered(rows: seq<EventRow>, bound: int) {
    && (forall k :: 0 <= k < |rows| ==> rows[k].id.Some? && 0 <= rows[k].id.value < bound)
    && (forall j, k :: 0 <= j < k < |rows| ==> rows[j].id.value < rows[k].id.value)
  }

  lemma {:induction false} WithoutOrdered(rows: seq<EventRow>, ids: set<int>, bound: int)
    requires Ordered(rows, bound)
    ensures Ordered(Without(rows, ids), bound)
  {
    if rows != [] {
      var tail := rows[1..];
      OrderedTail(rows, bound);
      WithoutOrdered(tail, ids, bound);
      var rest := Without(tail, ids);
      if rows[0].id.value in ids {
        assert Without(rows, ids) == rest;
      } else {
        assert Without(rows, ids) == [rows[0]] + rest;
        forall k | 0 <= k < |rest| ensures rows[0].id.value < rest[k].id.value {
          WithoutKeepsMembers(tail, ids, k);
        }
        OrderedCons(rows[0], rest, bound);
      }
    }
  }

  lemma OrderedTail(rows: seq<EventRow>, bound: int)
    requires Ordered(rows, bound) && rows != []
    ensures Ordered(rows[1..], bound)
  {
  }

  lemma OrderedCons(row: EventRow, rest: seq<EventRow>, bound: int)
    requires Ordered(rest, bound) && row.id.Some? && 0 <= row.id.value < bound
    requires forall k :: 0 <= k < |rest| ==> row.id.value < rest[k].id.value
    ensures Ordered([row] + rest, bound)
  {
    var r := [row] + rest;
    assert forall k :: 1 <= k < |r| ==> r[k] == rest[k - 1];
  }

  /** Deleting the oldest row by its id, in an ordered table, drops exactly
      that row. */
  lemma {:induction false} WithoutOldest(rows: seq<EventRow>, bound: int)
    requires Ordered(rows, bound) && rows != []
    ensures Without(rows, {rows[0].id.value}) == rows[1..]
  {
    WithoutAbsent(rows[1..], {rows[0].id.value});
  }

  lemma {:induction false} WithoutAbsent(rows: seq<EventRow>, ids: set<int>)
    requires forall k :: 0 <= k < |rows| ==> rows[k].id.None? || rows[k].id.value !in ids
    ensures Without(rows, ids) == rows
  {
    if rows != [] {
      WithoutAbsent(rows[1..], ids);
    }
  }

  /** A bound on `processEvents`' submissions: the allowed count, but at
      least one, since the check comes after the first batch. */
  function SubmissionBound(allowed: int): (n: int)
    ensures n >= 1 && n >= allowed
    ensures n == allowed || n == 1
  {
    if allowed < 1 then 1 else allowed
  }

  // ---------------------------------------------------------- processEvents

  /** What `processEvents` works with besides the table: the request-size
      limit, the allowed number of submissions, the message parser, the batch
      measure, whether there is an endpoint, and the outcome of the n-th
      submission. */
  datatype ProcessConfig = ProcessConfig(
    maxRequestSize: int,
    maxSubmissionsAllowed: int,
    parse: string -> Option<JsonObject>,
    measure: Measure,
    hasEndpoint: bool,
    outcomeOf: nat -> PutOutcome)

  /** Where `processEvents` ends: its submissions, the ids it deleted, the
      exception that escaped (if any), and how many rows the cursor got through. */
  datatype Processed = Processed(submissions: nat, deleted: set<int>, escaped: Option<string>, read: int)

  /** One pass of the loop body from the row at `position`: the last row
      the batch read, whether the batch had rows to delete and so was
      submitted, and what the submission left of its delete map (or the
      exception that escaped). */
  datatype Round = Round(last: int, submitted: bool, kept: Result<map<int, Option<int>>, string>)

  function RoundAt(rows: seq<EventRow>, position: int, submissions: nat, c: ProcessConfig): (r: Round)
    requires 0 <= position < |rows|
    ensures position <= r.last < |rows|
  {
    var g := Gather(rows, position, EmptyBatch, c.maxRequestSize, c.parse, c.measure);
    var submitted := |g.batch.toDelete| > 0;
    Round(g.last, submitted,
          if submitted then SubmissionResult(g.batch.events, g.batch.toDelete, c.hasEndpoint, c.outcomeOf(submissions))
          else Success(g.batch.toDelete))
  }

  /** Each round from a row inside a table of `len` rows ends on a row at or
      after it and inside the table. */
  ghost predicate Advances(len: int, round: (int, nat) -> Round) {
    forall q: int, s: nat :: 0 <= q < len ==> q <= round(q, s).last < len
  }

  /** The rounds of the table: the round from each row, for each number of
      submissions made before it. */
  function Rounds(rows: seq<EventRow>, c: ProcessConfig): (round: (int, nat) -> Round)
    ensures Advances(|rows|, round)
    ensures forall q: int, s: nat :: 0 <= q < |rows| ==> round(q, s) == RoundAt(rows, q, s, c)
  {
    (q: int, s: nat) => if 0 <= q < |rows| then RoundAt(rows, q, s, c) else Round(q, false, Success(map[]))
  }

  /** The loop of lines 322-349 over a table of `len` rows whose rounds are
      `round`, from the row at `position` on, with `submissions` made and
      `deleted` gone so far: take the round, delete what its submission
      leaves, and go on unless an exception escaped, the `allowed`
      submissions are made or the table is exhausted. */
  function Drive(len: int, round: (int, nat) -> Round, allowed: int, position: int, submissions: nat,
                 deleted: set<int>): (p: Processed)
    requires 0 <= position < len && Advances(len, round)
    ensures position < p.read <= len
    decreases len - position
  {
    var r := round(position, submissions);
    if r.kept.Failure? then Processed(submissions, deleted, Some(r.kept.error), r.last + 1)
    else
      var n := if r.submitted then submissions + 1 else submissions;
      var d := deleted + r.kept.value.Keys;
      if n >= allowed || r.last + 1 == len then Processed(n, d, None, r.last + 1)
      else Drive(len, round, allowed, r.last + 1, n, d)
  }

  /** The loop of lines 322-349 over the table from the row at `position` on. */
  function ProcessFrom(rows: seq<EventRow>, position: int, submissions: nat, deleted: set<int>, c: ProcessConfig)
    : (p: Processed)
    requires 0 <= position < |rows|
    ensures position < p.read <= |rows|
  {
    Drive(|rows|, Rounds(rows, c), c.maxSubmissionsAllowed, position, submissions, deleted)
  }

  /** A round deletes only ids of the table's rows. */
  lemma RoundDeletesTableIds(rows: seq<EventRow>, position: int, submissions: nat, c: ProcessConfig)
    requires 0 <= position < |rows|
    ensures var r := RoundAt(rows, position, submissions, c);
      r.kept.Success? ==> forall id :: id in r.kept.value ==> HasId(rows, id)
  {
    GatherDeletesOnlyReadRows(rows, position, EmptyBatch, c.maxRequestSize, c.parse, c.measure);
  }

  /** Without an endpoint, or after a retryable failure, a round deletes nothing. */
  lemma RoundKeepsRows(rows: seq<EventRow>, position: int, submissions: nat, c: ProcessConfig)
    requires 0 <= position < |rows|
    requires !c.hasEndpoint || KeepsBatch(c.outcomeOf(submissions))
    ensures var r := RoundAt(rows, position, submissions, c); r.kept.Success? && r.kept.value.Keys == {}
  {
    var g := Gather(rows, position, EmptyBatch, c.maxRequestSize, c.parse, c.measure);
    if |g.batch.toDelete| == 0 {
      assert g.batch.toDelete == map[];
    }
  }

  /** When the submission keeps the delete map as it is, a round deletes
      every row it read that has an id. */
  lemma RoundDeletesReadRows(rows: seq<EventRow>, position: int, submissions: nat, c: ProcessConfig)
    requires 0 <= position < |rows|
    requires KeepsDeleteMap(rows, c, c.outcomeOf(submissions))
    ensures var r := RoundAt(rows, position, submissions, c);
      && r.kept.Success?
      && forall k :: position <= k <= r.last && rows[k].id.Some? ==> rows[k].id.value in r.kept.value
  {
    GatherDeletesEveryReadRow(rows, position, EmptyBatch, c.maxRequestSize, c.parse, c.measure);
  }

  /** One unfolding of Drive. */
  lemma DriveStep(len: int, round: (int, nat) -> Round, allowed: int, position: int, submissions: nat,
                  deleted: set<int>)
    requires 0 <= position < len && Advances(len, round)
    ensures var r := round(position, submissions);
      var p := Drive(len, round, allowed, position, submissions, deleted);
      var n := if r.submitted then submissions + 1 else submissions;
      && (r.kept.Failure? ==> p == Processed(submissions, deleted, Some(r.kept.error), r.last + 1))
      && (r.kept.Success? && (n >= allowed || r.last + 1 == len) ==>
            p == Processed(n, deleted + r.kept.value.Keys, None, r.last + 1))
      && (r.kept.Success? && !(n >= allowed || r.last + 1 == len) ==>
            p == Drive(len, round, allowed, r.last + 1, n, deleted + r.kept.value.Keys))
  {
  }

  /** The first half of the loop body of lines 322-335: read a batch and
      submit it when it has rows to delete. */
  method RunRound(rows: seq<EventRow>, position: int, submissions: nat, c: ProcessConfig) returns (r: Round)
    requires 0 <= position < |rows|
    ensures r == RoundAt(rows, position, submissions, c)
  {
    var events, toDelete, last := GetBatchOfEvents(rows, position, c.maxRequestSize, c.parse, c.measure);
    if |toDelete| > 0 {
      var kept := SubmitEventsAndEndpoint(events, toDelete, c.hasEndpoint, c.outcomeOf(submissions));
      return Round(last, true, kept);
    }
    r := Round(last, false, Success(toDelete));
  }

  /** processEvents over the whole table; an empty table does nothing. */
  function Processing(rows: seq<EventRow>, c: ProcessConfig): (p: Processed)
    ensures 0 <= p.read <= |rows|
  {
    if rows == [] then Processed(0, {}, None, 0) else ProcessFrom(rows, 0, 0, {}, c)
  }

  /** The loop never takes back a submission or a deletion. */
  lemma {:induction false} DriveGrows(len: int, round: (int, nat) -> Round, allowed: int, position: int,
                                      submissions: nat, deleted: set<int>)
    requires 0 <= position < len && Advances(len, round)
    ensures var p := Drive(len, round, allowed, position, submissions, deleted);
      submissions <= p.submissions && deleted <= p.deleted
    decreases len - position
  {
    var r := round(position, submissions);
    if r.kept.Success? {
      var n := if r.submitted then submissions + 1 else submissions;
      if !(n >= allowed || r.last + 1 == len) {
        DriveGrows(len, round, allowed, r.last + 1, n, deleted + r.kept.value.Keys);
      }
    }
  }

  /** A loop that starts below the bound on submissions stays within it. */
  lemma {:induction false} DriveBounded(len: int, round: (int, nat) -> Round, allowed: int, position: int,
                                        submissions: nat, deleted: set<int>)
    requires 0 <= position < len && Advances(len, round)
    requires submissions < SubmissionBound(allowed)
    ensures Drive(len, round, allowed, position, submissions, deleted).submissions <= SubmissionBound(allowed)
    decreases len - position
  {
    var r := round(position, submissions);
    if r.kept.Success? {
      var n := if r.submitted then submissions + 1 else submissions;
      if !(n >= allowed || r.last + 1 == len) {
        DriveBounded(len, round, allowed, r.last + 1, n, deleted + r.kept.value.Keys);
      }
    }
  }

  /** The loop stops only at the end of the table, at the allowed number of
      submissions, or on an exception. */
  lemma {:induction false} DriveStops(len: int, round: (int, nat) -> Round, allowed: int, position: int,
                                      submissions: nat, deleted: set<int>)
    requires 0 <= position < len && Advances(len, round)
    ensures var p := Drive(len, round, allowed, position, submissions, deleted);
      p.escaped.Some? || p.read == len || p.submissions >= allowed
    decreases len - position
  {
    var r := round(position, submissions);
    if r.kept.Success? {
      var n := if r.submitted then submissions + 1 else submissions;
      if !(n >= allowed || r.last + 1 == len) {
        DriveStops(len, round, allowed, r.last + 1, n, deleted + r.kept.value.Keys);
      }
    }
  }

  /** A round whose submission leaves only ids of the table's rows. */
  predicate DeletesTableIds(rows: seq<EventRow>, r: Round) {
    r.kept.Success? ==> forall id :: id in r.kept.value ==> HasId(rows, id)
  }

  /** When every round leaves only ids of the table's rows, the loop deletes
      nothing else. */
  lemma {:induction false} DriveDeletesTableIds(rows: seq<EventRow>, round: (int, nat) -> Round, allowed: int,
                                                position: int, submissions: nat, deleted: set<int>)
    requires 0 <= position < |rows| && Advances(|rows|, round)
    requires forall q: int, s: nat :: 0 <= q < |rows| ==> DeletesTableIds(rows, round(q, s))
    ensures forall id :: id in Drive(|rows|, round, allowed, position, submissions, deleted).deleted ==>
      id in deleted || HasId(rows, id)
    decreases |rows| - position
  {
    var r := round(position, submissions);
    if r.kept.Success? {
      var n := if r.submitted then submissions + 1 else submissions;
      if !(n >= allowed || r.last + 1 == |rows|) {
        DriveDeletesTableIds(rows, round, allowed, r.last + 1, n, deleted + r.kept.value.Keys);
      }
    }
  }

  /** A round that leaves nothing to delete and does not throw. */
  predicate KeepsAll(r: Round) {
    r.kept.Success? && r.kept.value.Keys == {}
  }

  /** When no round deletes anything or throws, neither does the loop. */
  lemma {:induction false} DriveKeepsRows(len: int, round: (int, nat) -> Round, allowed: int, position: int,
                                          submissions: nat, deleted: set<int>)
    requires 0 <= position < len && Advances(len, round)
    requires forall q: int, s: nat :: 0 <= q < len ==> KeepsAll(round(q, s))
    ensures Drive(len, round, allowed, position, submissions, deleted).deleted == deleted
    ensures Drive(len, round, allowed, position, submissions, deleted).escaped == None
    decreases len - position
  {
    var r := round(position, submissions);
    assert KeepsAll(r);
    assert deleted + r.kept.value.Keys == deleted;
    if r.kept.Success? {
      var n := if r.submitted then submissions + 1 else submissions;
      if !(n >= allowed || r.last + 1 == len) {
        DriveKeepsRows(len, round, allowed, r.last + 1, n, deleted);
      }
    }
  }

  /** A round that does not throw and deletes every row it read that has an id. */
  predicate DeletesRead(rows: seq<EventRow>, q: int, r: Round) {
    && r.kept.Success?
    && forall k :: q <= k <= r.last && 0 <= k < |rows| && rows[k].id.Some? ==> rows[k].id.value in r.kept.value
  }

  /** When every round deletes the rows it read, the loop deletes every row
      it got through that has an id, and nothing escapes. */
  lemma {:induction false} DriveDeletesRead(rows: seq<EventRow>, round: (int, nat) -> Round, allowed: int,
                                            position: int, submissions: nat, deleted: set<int>)
    requires 0 <= position < |rows| && Advances(|rows|, round)
    requires forall q: int, s: nat :: 0 <= q < |rows| ==> DeletesRead(rows, q, round(q, s))
    ensures var p := Drive(|rows|, round, allowed, position, submissions, deleted);
      && p.escaped == None && deleted <= p.deleted
      && forall k :: position <= k < p.read && rows[k].id.Some? ==> rows[k].id.value in p.deleted
    decreases |rows| - position
  {
    var r := round(position, submissions);
    if r.kept.Success? {
      var n := if r.submitted then submissions + 1 else submissions;
      if !(n >= allowed || r.last + 1 == |rows|) {
        DriveDeletesRead(rows, round, allowed, r.last + 1, n, deleted + r.kept.value.Keys);
      }
    }
  }

  /** Only ids of the table's rows are ever deleted. */
  lemma ProcessFromDeletesTableIds(rows: seq<EventRow>, position: int, submissions: nat, deleted: set<int>,
                                   c: ProcessConfig)
    requires 0 <= position < |rows|
    ensures forall id :: id in ProcessFrom(rows, position, submissions, deleted, c).deleted ==> id in deleted || HasId(rows, id)
  {
    var round := Rounds(rows, c);
    forall q: int, s: nat | 0 <= q < |rows| ensures DeletesTableIds(rows, round(q, s)) {
      RoundDeletesTableIds(rows, q, s, c);
    }
    DriveDeletesTableIds(rows, round, c.maxSubmissionsAllowed, position, submissions, deleted);
  }

  /** A submission outcome after which the batch is kept: a retryable
      service error or a retryable client error. */
  predicate KeepsBatch(o: PutOutcome) {
    (o.ServiceFailure? && IsRetryable(o.errorCode)) || (o.ClientFailure? && o.retryableCause)
  }

  /** Without an endpoint, or when every submission fails retryably, no row
      is deleted and nothing escapes. */
  lemma ProcessFromKeepsRows(rows: seq<EventRow>, position: int, submissions: nat, deleted: set<int>, c: ProcessConfig)
    requires 0 <= position < |rows|
    requires !c.hasEndpoint || forall n :: KeepsBatch(c.outcomeOf(n))
    ensures ProcessFrom(rows, position, submissions, deleted, c).deleted == deleted
    ensures ProcessFrom(rows, position, submissions, deleted, c).escaped == None
  {
    var round := Rounds(rows, c);
    forall q: int, s: nat | 0 <= q < |rows| ensures KeepsAll(round(q, s)) {
      RoundKeepsRows(rows, q, s, c);
    }
    DriveKeepsRows(|rows|, round, c.maxSubmissionsAllowed, position, submissions, deleted);
  }

  /** The submission outcome `o` leaves the delete map of every batch the
      table can yield as it is. */
  predicate KeepsDeleteMap(rows: seq<EventRow>, c: ProcessConfig, o: PutOutcome) {
    forall i :: 0 <= i < |rows| ==>
      var b := Gather(rows, i, EmptyBatch, c.maxRequestSize, c.parse, c.measure).batch;
      SubmissionResult(b.events, b.toDelete, c.hasEndpoint, o) == Success(b.toDelete)
  }

  /** When no submission takes anything out of its delete map, every row the
      cursor got through that has an id is deleted, and nothing escapes. */
  lemma ProcessFromDeletesReadRows(rows: seq<EventRow>, position: int, submissions: nat, deleted: set<int>,
                                   c: ProcessConfig)
    requires 0 <= position < |rows|
    requires forall n :: KeepsDeleteMap(rows, c, c.outcomeOf(n))
    ensures var p := ProcessFrom(rows, position, submissions, deleted, c);
      && p.escaped == None && deleted <= p.deleted
      && forall k :: position <= k < p.read && rows[k].id.Some? ==> rows[k].id.value in p.deleted
  {
    var round := Rounds(rows, c);
    forall q: int, s: nat | 0 <= q < |rows| ensures DeletesRead(rows, q, round(q, s)) {
      RoundDeletesReadRows(rows, q, s, c);
    }
    DriveDeletesRead(rows, round, c.maxSubmissionsAllowed, position, submissions, deleted);
  }

  /** A submission outcome after which the batch is deleted although it was
      not delivered: a final service error or a final client error. */
  predicate DropsBatch(o: PutOutcome) {
    (o.ServiceFailure? && !IsRetryable(o.errorCode)) || (o.ClientFailure? && !o.retryableCause)
  }

  /** With an endpoint, when every submission fails for good, every row the
      cursor got through that has an id is deleted. */
  lemma FinalFailuresDeleteReadRows(rows: seq<EventRow>, c: ProcessConfig)
    requires c.hasEndpoint && forall n :: DropsBatch(c.outcomeOf(n))
    ensures var p := Processing(rows, c);
      && p.escaped == None
      && forall k :: 0 <= k < p.read && rows[k].id.Some? ==> rows[k].id.value in p.deleted
  {
    if rows != [] {
      forall n: nat ensures KeepsDeleteMap(rows, c, c.outcomeOf(n)) {
        assert DropsBatch(c.outcomeOf(n));
      }
      ProcessFromDeletesReadRows(rows, 0, 0, {}, c);
    }
  }

  /** The event a row yields, if any, is accepted by the item responses. */
  predicate AcceptedRow(row: EventRow, parse: string -> Option<JsonObject>, messages: map<string, string>) {
    var r := ReadEventFromCursor(row, parse);
    r.event.Some? ==> ItemVerdictOf(r.event.value, messages).Accepted?
  }

  predicate AllAccepted(events: seq<JsonObject>, messages: map<string, string>) {
    forall j :: 0 <= j < |events| ==> ItemVerdictOf(events[j], messages).Accepted?
  }

  /** A batch read from accepted rows holds only accepted events. */
  lemma {:induction false} GatherAccepted(rows: seq<EventRow>, i: int, b: Batch, maxRequestSize: int,
                                          parse: string -> Option<JsonObject>, m: Measure, messages: map<string, string>)
    requires 0 <= i < |rows|
    requires forall k :: i <= k < |rows| ==> AcceptedRow(rows[k], parse, messages)
    requires AllAccepted(b.events, messages)
    ensures AllAccepted(Gather(rows, i, b, maxRequestSize, parse, m).batch.events, messages)
    decreases |rows| - i
  {
    var read := ReadEventFromCursor(rows[i], parse);
    var next := Step(b, read, m);
    assert AcceptedRow(rows[i], parse, messages);
    assert AllAccepted(next.events, messages) by {
      if read.event.Some? {
        assert next.events == b.events + [read.event.value];
      }
    }
    if !(Full(next, maxRequestSize) || i + 1 == |rows|) {
      GatherAccepted(rows, i + 1, next, maxRequestSize, parse, m, messages);
    }
  }

  /** When every event is accepted, the response answers them all and keeps none. */
  lemma {:induction false} AcceptedRetainsNone(events: seq<JsonObject>, messages: map<string, string>)
    requires AllAccepted(events, messages)
    ensures AllAnswered(events, messages) && RetainedIds(events, messages) == {}
  {
    if events != [] {
      assert AllAccepted(events[..|events| - 1], messages);
      AcceptedRetainsNone(events[..|events| - 1], messages);
    }
  }

  /** With an endpoint, when the service accepts every stored event, every
      row the cursor got through that has an id is deleted. */
  lemma AcceptedDeletesReadRows(rows: seq<EventRow>, c: ProcessConfig, messages: map<string, string>)
    requires c.hasEndpoint && forall n :: c.outcomeOf(n) == Delivered(Some(messages))
    requires forall k :: 0 <= k < |rows| ==> AcceptedRow(rows[k], c.parse, messages)
    ensures var p := Processing(rows, c);
      && p.escaped == None
      && forall k :: 0 <= k < p.read && rows[k].id.Some? ==> rows[k].id.value in p.deleted
  {
    if rows != [] {
      forall n: nat ensures KeepsDeleteMap(rows, c, c.outcomeOf(n)) {
        forall i | 0 <= i < |rows|
          ensures var b := Gather(rows, i, EmptyBatch, c.maxRequestSize, c.parse, c.measure).batch;
            SubmissionResult(b.events, b.toDelete, c.hasEndpoint, c.outcomeOf(n)) == Success(b.toDelete)
        {
          var b := Gather(rows, i, EmptyBatch, c.maxRequestSize, c.parse, c.measure).batch;
          GatherAccepted(rows, i, EmptyBatch, c.maxRequestSize, c.parse, c.measure, messages);
          AcceptedRetainsNone(b.events, messages);
          assert b.toDelete - {} == b.toDelete;
        }
      }
      ProcessFromDeletesReadRows(rows, 0, 0, {}, c);
    }
  }

  /** Over the whole table: only its ids are deleted, the submissions stay
      within the bound, and the run stops only at the end of the table, at
      the allowed number of submissions or on an exception. */
  lemma ProcessingBounds(rows: seq<EventRow>, c: ProcessConfig)
    ensures var p := Processing(rows, c);
      && (forall id :: id in p.deleted ==> HasId(rows, id))
      && p.submissions <= SubmissionBound(c.maxSubmissionsAllowed)
      && (p.escaped.Some? || p.read == |rows| || p.submissions >= c.maxSubmissionsAllowed)
  {
    if rows != [] {
      DriveBounded(|rows|, Rounds(rows, c), c.maxSubmissionsAllowed, 0, 0, {});
      DriveStops(|rows|, Rounds(rows, c), c.maxSubmissionsAllowed, 0, 0, {});
      ProcessFromDeletesTableIds(rows, 0, 0, {}, c);
    }
  }

  /** When the oldest row has an id, the first batch is submitted: the run
      makes at least one submission unless that submission throws. */
  lemma ProcessingSubmitsFirstBatch(rows: seq<EventRow>, c: ProcessConfig)
    requires rows != [] && rows[0].id.Some?
    ensures var p := Processing(rows, c); p.submissions >= 1 || p.escaped.Some?
  {
    var round := Rounds(rows, c);
    var r := RoundAt(rows, 0, 0, c);
    assert r.submitted by {
      var g := Gather(rows, 0, EmptyBatch, c.maxRequestSize, c.parse, c.measure);
      GatherDeletesEveryReadRow(rows, 0, EmptyBatch, c.maxRequestSize, c.parse, c.measure);
      assert rows[0].id.value in g.batch.toDelete;
    }
    assert round(0, 0) == r;
    DriveStep(|rows|, round, c.maxSubmissionsAllowed, 0, 0, {});
    if r.kept.Success? && !(1 >= c.maxSubmissionsAllowed || r.last + 1 == |rows|) {
      DriveGrows(|rows|, round, c.maxSubmissionsAllowed, r.last + 1, 1, {} + r.kept.value.Keys);
    }
  }

  class EventDatabase {
    var rows: seq<EventRow>
    var nextId: int

    ghost predicate Valid()
      reads this
    {
      nextId >= 0 && Ordered(rows, nextId)
    }

    constructor ()
      ensures Valid() && rows == [] && nextId == 0
    {
      rows := [];
      nextId := 0;
    }

    /** saveEvent: a new row holding the event, when the insert succeeds. */
    method SaveEvent(event: AnalyticsEvent, inserted: bool) returns (uri: Option<int>)
      requires Valid()
      modifies this
      ensures Valid()
      ensures inserted ==>
        && uri == Some(old(nextId)) && nextId == old(nextId) + 1
        && rows == old(rows) + [EventRow(Some(old(nextId)), Some(|event.json|), Some(event.json))]
      ensures !inserted ==> uri == None && rows == old(rows) && nextId == old(nextId)
    {
      if !inserted {
        return None;
      }
      uri := Some(nextId);
      rows := rows + [EventRow(Some(nextId), Some(|event.json|), Some(event.json))];
      nextId := nextId + 1;
    }

    method DeleteEvent(id: int)
      requires Valid()
      modifies this
      ensures Valid() && nextId == old(nextId)
      ensures rows == Without(old(rows), {id})
    {
      WithoutOrdered(rows, {id}, nextId);
      rows := Without(rows, {id});
    }

    /** recordEvent: save the event, then delete the oldest rows, five per
        cursor, until the table fits the pending budget. A missing event or
        a failed save gives no URI and evicts nothing. */
    method RecordEvent(event: Option<AnalyticsEvent>, configuredMaxPendingSize: Option<int>, inserted: bool)
      returns (uri: Option<int>)
      requires Valid()
      modifies this
      ensures Valid()
      ensures event.None? || !inserted ==> uri == None && rows == old(rows) && nextId == old(nextId)
      ensures event.Some? && inserted ==>
        && uri == Some(old(nextId)) && nextId == old(nextId) + 1
        && rows == Evicted(old(rows) + [EventRow(Some(old(nextId)), Some(|event.value.json|), Some(event.value.json))],
                           PendingLimit(configuredMaxPendingSize))
    {
      if event.None? {
        return None;
      }
      var maxPendingSize := configuredMaxPendingSize.GetOr(DefaultMaxPendingSize);
      if maxPendingSize < MinimumPendingSize {
        maxPendingSize := MinimumPendingSize;
      }
      uri := SaveEvent(event.value, inserted);
      if uri.None? {
        return;
      }
      Evict(maxPendingSize);
    }

    /** The eviction loop of recordEvent: while the table is over budget,
        query its five oldest rows and delete them one by one, stopping as
        soon as it fits. */
    method Evict(maxPendingSize: int)
      requires Valid() && maxPendingSize >= 0
      modifies this
      ensures Valid() && nextId == old(nextId)
      ensures rows == Evicted(old(rows), maxPendingSize)
    {
      ghost var target := Evicted(rows, maxPendingSize);
      while TotalSize(rows) > maxPendingSize
        invariant Valid() && nextId == old(nextId)
        invariant Evicted(rows, maxPendingSize) == target
        decreases |rows|
      {
        ghost var before := rows;
        var oldest := rows[..if |rows| < 5 then |rows| else 5];
        var k := 0;
        while k < |oldest| && TotalSize(rows) > maxPendingSize
          invariant 0 <= k <= |oldest| && rows == before[k..]
          invariant Valid() && nextId == old(nextId)
          invariant Evicted(rows, maxPendingSize) == target
        {
          WithoutOldest(rows, nextId);
          DeleteEvent(oldest[k].id.value);
          k := k + 1;
        }
      }
    }

    /** processEvents: batch the table from its oldest row, submit each batch
        that has rows to delete, and delete what the submission leaves in the
        delete map; stop after the allowed number of submissions, at the end
        of the table, or when an exception escapes. */
    method ProcessEvents(configuredMaxSubmissionSize: Option<int>, configuredMaxSubmissions: Option<int>,
                         parse: string -> Option<JsonObject>, m: Measure, hasEndpoint: bool, outcomeOf: nat -> PutOutcome)
      returns (submissions: nat, deleted: set<int>, escaped: Option<string>)
      requires Valid()
      modifies this
      ensures Valid() && nextId == old(nextId)
      ensures var p := Processing(old(rows), ProcessConfig(configuredMaxSubmissionSize.GetOr(DefaultMaxSubmissionSize),
                                                           configuredMaxSubmissions.GetOr(DefaultMaxSubmissionsAllowed),
                                                           parse, m, hasEndpoint, outcomeOf));
        submissions == p.submissions && deleted == p.deleted && escaped == p.escaped
      ensures rows == Without(old(rows), deleted)
    {
      submissions := 0;
      deleted := {};
      escaped := None;
      var cursor := rows;
      WithoutAbsent(rows, {});
      if cursor == [] {
        return;
      }
      var c := ProcessConfig(configuredMaxSubmissionSize.GetOr(DefaultMaxSubmissionSize),
                             configuredMaxSubmissions.GetOr(DefaultMaxSubmissionsAllowed),
                             parse, m, hasEndpoint, outcomeOf);
      ghost var round := Rounds(cursor, c);
      var position := 0;
      while true
        invariant 0 <= position < |cursor|
        invariant Valid() && nextId == old(nextId)
        invariant cursor == old(rows) && rows == Without(cursor, deleted)
        invariant Drive(|cursor|, round, c.maxSubmissionsAllowed, position, submissions, deleted) == Processing(cursor, c)
        decreases |cursor| - position
      {
        var r := RunRound(cursor, position, submissions, c);
        var done, next;
        submissions, deleted, escaped, next, done :=
          CompleteRound(cursor, position, submissions, deleted, c.maxSubmissionsAllowed, r, round);
        if done {
          return;
        }
        position := next;
      }
    }

    /** The second half of the loop body of lines 333-349, after round `r`
        from the row at `position`: count its submission, delete what the
        submission leaves, and say whether the loop ends here. The loop from
        `position` then ends with the new counts, or goes on as the loop
        from `next`. */
    method CompleteRound(cursor: seq<EventRow>, position: int, submissions: nat, deleted: set<int>, allowed: int,
                         r: Round, ghost round: (int, nat) -> Round)
      returns (n: nat, d: set<int>, escaped: Option<string>, next: int, done: bool)
      requires Valid() && 0 <= position < |cursor| && rows == Without(cursor, deleted)
      requires Advances(|cursor|, round) && r == round(position, submissions)
      modifies this
      ensures Valid() && nextId == old(nextId) && rows == Without(cursor, d)
      ensures done ==> Drive(|cursor|, round, allowed, position, submissions, deleted) == Processed(n, d, escaped, next)
      ensures !done ==>
        && position < next < |cursor| && escaped.None?
        && Drive(|cursor|, round, allowed, position, submissions, deleted) == Drive(|cursor|, round, allowed, next, n, d)
    {
      DriveStep(|cursor|, round, allowed, position, submissions, deleted);
      next := r.last + 1;
      if r.kept.Failure? {
        return submissions, deleted, Some(r.kept.error), next, true;
      }
      n := if r.submitted then submissions + 1 else submissions;
      var ids := r.kept.value.Keys;
      WithoutTwice(cursor, deleted, ids);
      DeleteEvents(ids);
      d := deleted + ids;
      escaped := None;
      done := n >= allowed || next == |cursor|;
    }

    /** Deletes the rows of every id in the set, one id at a time. */
    method DeleteEvents(ids: set<int>)
      requires Valid()
      modifies this
      ensures Valid() && nextId == old(nextId)
      ensures rows == Without(old(rows), ids)
    {
      var remaining := ids;
      ghost var done: set<int> := {};
      WithoutAbsent(rows, {});
      while remaining != {}
        invariant done + remaining == ids
        invariant Valid() && nextId == old(nextId)
        invariant rows == Without(old(rows), done)
        decreases remaining
      {
        if forall id :: id !in remaining {
          assert false;
        }
        var next :| next in remaining;
        WithoutTwice(old(rows), done, {next});
        DeleteEvent(next);
        remaining := remaining - {next};
        done := done + {next};
      }
    }
  }
}
