/** ModelElement.java: the debugger's record of one model, a list of its
    sync events, oldest first. */
module ModelElements {
  import opened Wrappers
  import opened DataStoreEvents

  /** Some event is in state `s`. */
  predicate HasState(views: seq<EventView>, s: EventState) {
    exists i :: 0 <= i < |views| && views[i].state == s
  }

  /** Looking at one more view finds a state when that view has it. */
  lemma HasStateExtend(views: seq<EventView>, i: int, s: EventState)
    requires 0 <= i < |views|
    ensures HasState(views[..i + 1], s) <==> HasState(views[..i], s) || views[i].state == s
  {
    if HasState(views[..i + 1], s) {
      var k :| 0 <= k < i + 1 && views[..i + 1][k].state == s;
      if k < i {
        assert views[..i][k] == views[..i + 1][k];
      }
    }
    if HasState(views[..i], s) {
      var k :| 0 <= k < i && views[..i][k].state == s;
      assert views[..i + 1][k] == views[..i][k];
    }
    if views[i].state == s {
      assert views[..i + 1][i] == views[i];
    }
  }

  /** The model's state: IN_PROGRESS over ERROR over SUCCESS over NOT_STARTED. */
  function ModelStateOf(views: seq<EventView>): EventState {
    if HasState(views, InProgress) then InProgress
    else if HasState(views, Error) then Error
    else if HasState(views, EventState.Success) then EventState.Success
    else NotStarted
  }

  /** With no events the model has not started. */
  lemma ModelStateOfNoEvents()
    ensures ModelStateOf([]) == NotStarted
  {
  }

  /** The messages of the ERROR events, in order. */
  function ErrorMessages(views: seq<EventView>): (r: seq<string>)
    ensures |r| <= |views|
  {
    if views == [] then []
    else
      var v := views[|views| - 1];
      ErrorMessages(views[..|views| - 1]) + (if v.state == Error && v.exception.Some? then [JavaText(v.exception.value.message)] else [])
  }

  /** TextUtils.join. */
  function Join(separator: string, parts: seq<string>): string {
    if parts == [] then ""
    else if |parts| == 1 then parts[0]
    else Join(separator, parts[..|parts| - 1]) + separator + parts[|parts| - 1]
  }

  /** A model with no ERROR event has an empty error description. */
  lemma {:induction false} NoErrorsNoDescription(views: seq<EventView>)
    requires !HasState(views, Error)
    ensures ErrorMessages(views) == [] && Join(", ", ErrorMessages(views)) == ""
  {
    if views != [] {
      var earlier := views[..|views| - 1];
      forall i | 0 <= i < |earlier| ensures earlier[i].state != Error {
        assert earlier[i] == views[i];
      }
      NoErrorsNoDescription(views[..|views| - 1]);
    }
  }

  /** The state word of the title. */
  function TitleStatus(views: seq<EventView>): string {
    if |views| == 1 && ModelStateOf(views) == EventState.Success then "PENDING_SYNC" else StateName(ModelStateOf(views))
  }

  /** The error part of the title. */
  function TitleErrors(views: seq<EventView>): string {
    if ModelStateOf(views) == Error then ": " + Join(", ", ErrorMessages(views)) else ""
  }

  /** getTitle: "<model> <latest event type>: <status>[: <errors>]"; None
      where it throws, on a model with no events. */
  function TitleOf(modelName: string, views: seq<EventView>): (r: Option<string>)
    ensures r.None? <==> views == []
  {
    if views == [] then None
    else Some(modelName + " " + views[|views| - 1].eventType + ": " + TitleStatus(views) + TitleErrors(views))
  }

  /** The title shows PENDING_SYNC exactly for a single successful event. */
  lemma TitlePendingSyncIff(views: seq<EventView>)
    ensures TitleStatus(views) == "PENDING_SYNC" <==> |views| == 1 && ModelStateOf(views) == EventState.Success
  {
    var s := ModelStateOf(views);
    if !(|views| == 1 && s == EventState.Success) {
      assert StateName(s)[0] != 'P';
    }
  }

  /** The title carries an error list exactly when the model is in ERROR. */
  lemma TitleErrorsIff(views: seq<EventView>)
    ensures TitleErrors(views) != "" <==> ModelStateOf(views) == Error
  {
  }

  /** The views of a list of events, in order. */
  function ViewsOf(events: seq<DataStoreEvent>): (r: seq<EventView>)
    reads events
    ensures |r| == |events|
  {
    if events == [] then [] else ViewsOf(events[..|events| - 1]) + [events[|events| - 1].View()]
  }

  /** Position by position, the views are those of the events. */
  lemma {:induction false} ViewsOfEach(events: seq<DataStoreEvent>)
    ensures forall i :: 0 <= i < |events| ==> ViewsOf(events)[i] == events[i].View()
  {
    if events != [] {
      var earlier := events[..|events| - 1];
      ViewsOfEach(earlier);
      assert forall i :: 0 <= i < |earlier| ==> earlier[i] == events[i];
    }
  }

  class ModelElement {
    const modelName: string
    var events: seq<DataStoreEvent>

    /** Every event appears once. */
    ghost predicate Distinct()
      reads this
    {
      forall i, j :: 0 <= i < j < |events| ==> events[i] != events[j]
    }

    /** Every event appears once and is valid. */
    ghost predicate Valid()
      reads this, events
    {
      Distinct() && forall i :: 0 <= i < |events| ==> events[i].Valid()
    }

    function Views(): seq<EventView>
      reads this, events
    {
      ViewsOf(events)
    }

    constructor (modelName: string)
      ensures Valid() && this.modelName == modelName && events == []
    {
      this.modelName := modelName;
      events := [];
    }

    /** startEvent: appends a new IN_PROGRESS event; the earlier ones stay. */
    method StartEvent(eventType: string, now: int)
      requires Distinct()
      modifies this
      ensures Distinct() && (old(Valid()) ==> Valid())
      ensures |events| == |old(events)| + 1 && events[..|old(events)|] == old(events) && fresh(events[|events| - 1])
      ensures Views() == old(Views()) + [EventView(eventType, InProgress, None, now, 0)]
    {
      var event := new DataStoreEvent(eventType, now);
      events := events + [event];
      assert events[..|events| - 1] == old(events);
    }

    /** finishEvent: finishes the latest event; throws on a model with no
        events. */
    method FinishEvent(now: int) returns (thrown: bool)
      requires Distinct()
      modifies if events == [] then {} else {events[|events| - 1]}
      ensures events == old(events) && (old(Valid()) ==> Valid())
      ensures thrown <==> events == []
      ensures !thrown ==> Views() == old(Views())[|events| - 1 := Finished(old(Views())[|events| - 1], now)]
    {
      if events == [] {
        return true;
      }
      thrown := false;
      var last := events[|events| - 1];
      last.Finish(now);
      forall i | 0 <= i < |events| - 1 ensures events[i].View() == old(events[i].View()) {
        assert events[i] != last;
      }
    }

    /** errorEvent: records the exception on the latest event; throws on a
        model with no events. */
    method ErrorEvent(exception: DataStoreException, now: int) returns (thrown: bool)
      requires Distinct()
      modifies if events == [] then {} else {events[|events| - 1]}
      ensures events == old(events) && (old(Valid()) ==> Valid())
      ensures thrown <==> events == []
      ensures !thrown ==> Views() == old(Views())[|events| - 1 := Errored(old(Views())[|events| - 1], exception, now)]
    {
      if events == [] {
        return true;
      }
      thrown := false;
      var last := events[|events| - 1];
      last.RecordError(exception, now);
      forall i | 0 <= i < |events| - 1 ensures events[i].View() == old(events[i].View()) {
        assert events[i] != last;
      }
    }

    /** getModelState: one pass setting three flags. */
    method GetModelState() returns (state: EventState)
      ensures state == ModelStateOf(Views())
    {
      var hasInProgressEvents := false;
      var hasErrorEvents := false;
      var hasSuccessEvents := false;
      ghost var views := Views();
      ViewsOfEach(events);
      for i := 0 to |events|
        invariant hasInProgressEvents <==> HasState(views[..i], InProgress)
        invariant hasErrorEvents <==> HasState(views[..i], Error)
        invariant hasSuccessEvents <==> HasState(views[..i], EventState.Success)
      {
        assert views[..i + 1][i] == views[i] && views[i].state == events[i].eventState;
        HasStateExtend(views, i, InProgress);
        HasStateExtend(views, i, Error);
        HasStateExtend(views, i, EventState.Success);
        match events[i].eventState
        case InProgress => hasInProgressEvents := true;
        case Error => hasErrorEvents := true;
        case Success => hasSuccessEvents := true;
        case NotStarted =>
      }
      assert views[..|events|] == views;
      if hasInProgressEvents {
        state := InProgress;
      } else if hasErrorEvents {
        state := Error;
      } else if hasSuccessEvents {
        state := EventState.Success;
      } else {
        state := NotStarted;
      }
    }

    /** getModelErrorDescription: the ERROR events' messages joined by ", ". */
    method GetModelErrorDescription() returns (description: string)
      requires Valid()
      ensures description == Join(", ", ErrorMessages(Views()))
    {
      var errors: seq<string> := [];
      ghost var views := Views();
      ViewsOfEach(events);
      for i := 0 to |events|
        invariant errors == ErrorMessages(views[..i])
      {
        assert views[..i + 1][..i] == views[..i];
        assert views[i] == events[i].View();
        if events[i].eventState == Error {
          assert events[i].Valid();
          errors := errors + [JavaText(events[i].dataStoreException.value.message)];
        }
      }
      assert views[..|events|] == views;
      description := Join(", ", errors);
    }

    /** getTitle; None where it throws, on a model with no events. */
    method GetTitle() returns (title: Option<string>)
      requires Valid()
      ensures title == TitleOf(modelName, Views())
    {
      ghost var views := Views();
      if events == [] {
        return None;
      }
      var latestEvent := events[|events| - 1];
      assert views[|views| - 1].eventType == latestEvent.eventType;
      var modelState := GetModelState();
      var status := if |events| == 1 && modelState == EventState.Success then "PENDING_SYNC" else StateName(modelState);
      assert status == TitleStatus(views);
      var errorPart := "";
      if modelState == Error {
        var errors := GetModelErrorDescription();
        errorPart := ": " + errors;
      }
      assert errorPart == TitleErrors(views);
      var text := modelName + " " + latestEvent.eventType + ": " + status + errorPart;
      title := Some(text);
    }
  }
}
