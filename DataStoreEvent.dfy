/** DataStoreEvent.java: one sync event of the DataStore debugger. The
    clock is a parameter (`now`, in milliseconds). EventType is not part of
    this model; an event type is its enum name. EventState is not part of
    this model either; it has the four constants the debugger uses. */
module DataStoreEvents {
  import opened Wrappers

  datatype EventState = InProgress | Error | Success | NotStarted

  function StateName(s: EventState): string {
    match s
    case InProgress => "IN_PROGRESS"
    case Error => "ERROR"
    case Success => "SUCCESS"
    case NotStarted => "NOT_STARTED"
  }

  /** A Throwable seen through its message (which may be null) and its cause. */
  datatype Cause = Cause(message: Option<string>, cause: Option<Cause>)

  /** A DataStoreException: one carrying GraphQL errors (their messages), or
      any other, with its cause chain. */
  datatype DataStoreException =
    | GraphQLResponseException(message: Option<string>, errors: seq<Option<string>>)
    | OtherDataStoreException(message: Option<string>, cause: Option<Cause>)

  /** Java's rendering of a possibly-null string in a concatenation. */
  function JavaText(s: Option<string>): string {
    if s.Some? then s.value else "null"
  }

  function DigitChar(d: nat): char
    requires d < 10
  {
    "0123456789"[d]
  }

  /** The decimal rendering of a non-negative long. */
  function NatToString(n: nat): (r: string)
    ensures |r| >= 1
    decreases n
  {
    if n < 10 then [DigitChar(n)] else NatToString(n / 10) + [DigitChar(n % 10)]
  }

  /** The messages of the first `depth` levels of a cause chain. */
  function CauseMessages(c: Option<Cause>, depth: nat): (r: seq<Option<string>>)
    ensures |r| <= depth
    decreases depth
  {
    if depth == 0 || c.None? then [] else [c.value.message] + CauseMessages(c.value.cause, depth - 1)
  }

  /** Looking deeper into the chain only adds messages after the first
      levels: the description's two levels are the chain's first two. */
  lemma {:induction false} CauseMessagesPrefix(c: Option<Cause>, depth: nat, deeper: nat)
    requires depth <= deeper
    ensures |CauseMessages(c, depth)| <= |CauseMessages(c, deeper)|
    ensures CauseMessages(c, depth) == CauseMessages(c, deeper)[..|CauseMessages(c, depth)|]
    decreases depth
  {
    if depth > 0 && c.Some? {
      CauseMessagesPrefix(c.value.cause, depth - 1, deeper - 1);
    }
  }

  /** Each message on a line of its own. */
  function Lines(messages: seq<Option<string>>): (r: string)
    ensures messages != [] ==> |r| >= 1 && r[|r| - 1] == '\n'
  {
    if messages == [] then "" else Lines(messages[..|messages| - 1]) + JavaText(messages[|messages| - 1]) + "\n"
  }

  /** The part of the description an exception contributes; None when a
      GraphQL exception has no errors, where `errors.get(0)` throws. */
  function ExceptionText(e: Option<DataStoreException>): (r: Option<string>)
    ensures r.None? <==> e.Some? && e.value.GraphQLResponseException? && e.value.errors == []
    ensures e.None? ==> r == Some("")
    ensures r.Some? && e.Some? ==> |r.value| >= 1 && r.value[|r.value| - 1] == '\n'
    ensures r.Some? && e.Some? && e.value.GraphQLResponseException? ==> r.value == JavaText(e.value.errors[0]) + "\n"
  {
    match e
    case None => Some("")
    case Some(GraphQLResponseException(_, errors)) =>
      if errors == [] then None else Some(JavaText(errors[0]) + "\n")
    case Some(OtherDataStoreException(message, cause)) =>
      Some(Lines([message] + CauseMessages(cause, 2)))
  }

  /** An event's fields, as `getDescription` reads them. */
  datatype EventView = EventView(eventType: string, state: EventState, exception: Option<DataStoreException>,
                                 startTime: int, endTime: int)

  function Header(v: EventView): string {
    v.eventType + " " + StateName(v.state) + ": "
  }

  function Timing(v: EventView): string {
    if v.endTime > v.startTime then "\nCompleted in " + NatToString(v.endTime - v.startTime) + "ms" else ""
  }

  /** getDescription: header, exception lines, then the timing line. */
  function Description(v: EventView): Option<string> {
    var text :- ExceptionText(v.exception);
    Some(Header(v) + text + Timing(v))
  }

  /** The description starts "<type> <state>: ". */
  lemma DescriptionStartsWithHeader(v: EventView)
    requires Description(v).Some?
    ensures |Header(v)| <= |Description(v).value|
    ensures Description(v).value[..|Header(v)|] == v.eventType + " " + StateName(v.state) + ": "
  {
    var text := ExceptionText(v.exception).value;
    assert Description(v).value == Header(v) + (text + Timing(v));
  }

  /** The description ends in "ms", the timing line, exactly when the event
      ended after it started. */
  lemma {:induction false} DescriptionTimedIff(v: EventView)
    requires Description(v).Some?
    ensures var d := Description(v).value;
      (|d| >= 2 && d[|d| - 2..] == "ms") <==> v.endTime > v.startTime
  {
    var d := Description(v).value;
    var text := ExceptionText(v.exception).value;
    if v.endTime > v.startTime {
      var t := Timing(v);
      assert d == (Header(v) + text + "\nCompleted in " + NatToString(v.endTime - v.startTime)) + "ms";
    } else {
      assert d == Header(v) + text;
      if text == "" {
        assert d[|d| - 1] == ' ';
      } else {
        assert d[|d| - 1] == '\n';
      }
    }
  }

  /** The event after `finish` at `now`. */
  function Finished(v: EventView, now: int): EventView {
    if v.exception.Some? then v else v.(state := EventState.Success, endTime := now)
  }

  /** The event after `error(exception)` at `now`. */
  function Errored(v: EventView, exception: DataStoreException, now: int): EventView {
    v.(state := Error, exception := Some(exception), endTime := now)
  }

  /** A finish after an error changes nothing: the event stays in ERROR
      with its exception and the time of the error. */
  lemma FinishAfterErrorKeepsError(v: EventView, exception: DataStoreException, t1: int, t2: int)
    ensures Finished(Errored(v, exception, t1), t2) == Errored(v, exception, t1)
    ensures Finished(Errored(v, exception, t1), t2).state == Error
  {
  }

  class DataStoreEvent {
    var startTime: int
    var endTime: int
    const eventType: string
    var eventState: EventState
    var dataStoreException: Option<DataStoreException>

    /** An exception is on record exactly when the event is in ERROR, and an
        event is never NOT_STARTED. */
    ghost predicate Valid()
      reads this
    {
      (dataStoreException.Some? <==> eventState == Error) && eventState != NotStarted
    }

    function View(): (v: EventView)
      reads this
      ensures v.eventType == eventType && v.state == eventState && v.exception == dataStoreException
      ensures v.startTime == startTime && v.endTime == endTime
    {
      EventView(eventType, eventState, dataStoreException, startTime, endTime)
    }

    constructor (eventType: string, now: int)
      ensures Valid()
      ensures View() == EventView(eventType, InProgress, None, now, 0)
    {
      this.eventType := eventType;
      startTime := now;
      endTime := 0;
      eventState := InProgress;
      dataStoreException := None;
    }

    /** finish: SUCCESS at `now`, unless an error is already on record. */
    method Finish(now: int)
      modifies this
      ensures old(Valid()) ==> Valid()
      ensures View() == Finished(old(View()), now)
    {
      if dataStoreException.Some? {
        return;
      }
      endTime := now;
      eventState := EventState.Success;
    }

    /** error: ERROR at `now` with the exception, whatever came before. */
    method RecordError(exception: DataStoreException, now: int)
      modifies this
      ensures Valid()
      ensures View() == Errored(old(View()), exception, now)
    {
      endTime := now;
      eventState := Error;
      dataStoreException := Some(exception);
    }

    /** getDescription; None where it throws. */
    function GetDescription(): (d: Option<string>)
      reads this
      ensures d == Description(View())
    {
      Description(View())
    }
  }
}
