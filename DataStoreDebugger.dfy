/** DataStoreDebugger.java: the process-wide registry of model elements and
    the listeners that are shown the element list after every change. The
    registry is a LinkedHashMap from model name to element; it is modelled
    as the sequence of its values in insertion order, each element carrying
    its own name as key. The Android notification code is not part of this
    model; a listener is an identity, and the calls into the listeners that
    one operation makes are its result, in call order. */
module DataStoreDebuggers {
  import opened Wrappers
  import opened DataStoreEvents
  import opened ModelElements

  datatype Listener = Listener(id: int)

  /** One `listener.accept(list)`. */
  datatype Notification = Notification(listener: Listener, elements: seq<ModelElement>)

  /** What one round of notifications delivers: each listener, in
      registration order, receives the same element list. */
  function NotificationsFor(listeners: seq<Listener>, elements: seq<ModelElement>): (r: seq<Notification>)
    ensures |r| == |listeners|
  {
    if listeners == [] then [] else NotificationsFor(listeners[..|listeners| - 1], elements) + [Notification(listeners[|listeners| - 1], elements)]
  }

  /** The i-th notification goes to the i-th listener, with the list. */
  lemma {:induction false} NotificationsForEach(listeners: seq<Listener>, elements: seq<ModelElement>)
    ensures forall i :: 0 <= i < |listeners| ==> NotificationsFor(listeners, elements)[i] == Notification(listeners[i], elements)
  {
    if listeners != [] {
      var earlier := listeners[..|listeners| - 1];
      NotificationsForEach(earlier, elements);
      assert forall i :: 0 <= i < |earlier| ==> earlier[i] == listeners[i];
    }
  }

  /** `modelsMap.get(modelName)`: the position of the element registered
      under that name, if there is one. */
  function Lookup(elements: seq<ModelElement>, modelName: string): (r: Option<nat>)
    ensures r.Some? ==> r.value < |elements| && elements[r.value].modelName == modelName
  {
    if elements == [] then None
    else if elements[|elements| - 1].modelName == modelName then Some(|elements| - 1)
    else Lookup(elements[..|elements| - 1], modelName)
  }

  /** Lookup finds nothing exactly when no element has that name. */
  lemma {:induction false} LookupNone(elements: seq<ModelElement>, modelName: string)
    ensures Lookup(elements, modelName).None? <==> forall i :: 0 <= i < |elements| ==> elements[i].modelName != modelName
  {
    if elements != [] && elements[|elements| - 1].modelName != modelName {
      var earlier := elements[..|elements| - 1];
      LookupNone(earlier, modelName);
      assert forall i :: 0 <= i < |earlier| ==> earlier[i] == elements[i];
    }
  }

  class DataStoreDebugger {
    /** `modelsMap.values()`, in insertion order. */
    var elements: seq<ModelElement>
    var syncEngineState: Option<EventState>
    var listeners: seq<Listener>

    /** No two elements share a name, and no element lists an event twice. */
    ghost predicate Valid()
      reads this, elements
    {
      && (forall i, j :: 0 <= i < j < |elements| ==> elements[i].modelName != elements[j].modelName)
      && (forall i :: 0 <= i < |elements| ==> elements[i].Distinct())
    }

    /** The element registered under that name, as a frame. */
    ghost function ElementNamed(modelName: string): set<ModelElement>
      reads this
    {
      match Lookup(elements, modelName)
      case Some(i) => {elements[i]}
      case None => {}
    }

    /** The latest event of that name's element, the one finishEvent and
        errorEvent update. */
    ghost function LatestEvent(modelName: string): set<DataStoreEvent>
      reads this, elements
    {
      match Lookup(elements, modelName)
      case Some(i) => if elements[i].events == [] then {} else {elements[i].events[|elements[i].events| - 1]}
      case None => {}
    }

    constructor ()
      ensures Valid()
      ensures elements == [] && syncEngineState == None && listeners == []
    {
      elements := [];
      syncEngineState := None;
      listeners := [];
    }

    /** getElement: the element of that name, created and appended if
        there is none yet. */
    method GetElement(modelName: string) returns (element: ModelElement)
      requires Valid()
      modifies this
      ensures Valid()
      ensures Lookup(elements, modelName).Some? && element == elements[Lookup(elements, modelName).value]
      ensures old(Lookup(elements, modelName)).Some? ==> elements == old(elements)
      ensures old(Lookup(elements, modelName)).None? ==>
        fresh(element) && element.events == [] && elements == old(elements) + [element]
      ensures syncEngineState == old(syncEngineState) && listeners == old(listeners)
    {
      var found := Lookup(elements, modelName);
      if found.Some? {
        return elements[found.value];
      }
      ghost var before := elements;
      LookupNone(before, modelName);
      element := new ModelElement(modelName);
      elements := elements + [element];
      assert Lookup(elements, modelName) == Some(|elements| - 1);
      forall i, j | 0 <= i < j < |elements|
        ensures elements[i].modelName != elements[j].modelName
      {
        assert elements[i] == before[i];
        if j < |before| {
          assert elements[j] == before[j];
        }
      }
      forall i | 0 <= i < |elements|
        ensures elements[i].Distinct()
      {
        if i < |before| {
          assert elements[i] == before[i];
        }
      }
    }

    /** notifyListeners: every listener, in registration order, is given
        the element list. */
    method NotifyListeners() returns (sent: seq<Notification>)
      ensures sent == NotificationsFor(listeners, elements)
    {
      sent := [];
      for i := 0 to |listeners|
        invariant sent == NotificationsFor(listeners[..i], elements)
      {
        assert listeners[..i + 1][..i] == listeners[..i];
        sent := sent + [Notification(listeners[i], elements)];
      }
      assert listeners[..|listeners|] == listeners;
    }

    method SetSyncEngineState(state: EventState) returns (sent: seq<Notification>)
      requires Valid()
      modifies this
      ensures Valid()
      ensures syncEngineState == Some(state)
      ensures sent == NotificationsFor(listeners, elements)
      ensures elements == old(elements) && listeners == old(listeners)
    {
      syncEngineState := Some(state);
      sent := NotifyListeners();
    }

    /** listen: registers the listener and notifies at once, the new
        listener included. */
    method Listen(listener: Listener) returns (sent: seq<Notification>)
      requires Valid()
      modifies this
      ensures Valid()
      ensures listeners == old(listeners) + [listener]
      ensures sent == NotificationsFor(listeners, elements)
      ensures elements == old(elements) && syncEngineState == old(syncEngineState)
    {
      listeners := listeners + [listener];
      sent := NotifyListeners();
    }

    /** startEvent: a new IN_PROGRESS event on that name's element, which
        is created if there is none, then one notification per listener. */
    method StartEvent(modelName: string, eventType: string, now: int) returns (sent: seq<Notification>)
      requires Valid()
      modifies this, ElementNamed(modelName)
      ensures Valid()
      ensures Lookup(elements, modelName).Some?
      ensures old(Lookup(elements, modelName)).Some? ==> elements == old(elements)
      ensures old(Lookup(elements, modelName)).None? ==> |elements| == |old(elements)| + 1 && elements[..|old(elements)|] == old(elements)
      ensures var element := elements[Lookup(elements, modelName).value];
        element.Views() == (if old(Lookup(elements, modelName)).Some? then old(element.Views()) else []) + [EventView(eventType, InProgress, None, now, 0)]
      ensures sent == NotificationsFor(listeners, elements)
      ensures listeners == old(listeners) && syncEngineState == old(syncEngineState)
    {
      var element := GetElement(modelName);
      label Registered:
      ghost var before := element.Views();
      assert before == if old(Lookup(elements, modelName)).Some? then old(element.Views()) else [];
      element.StartEvent(eventType, now);
      assert unchanged@Registered(this);
      sent := NotifyListeners();
    }

    /** finishEvent: finishes the latest event of that name's element. On a
        model with no events the element's exception propagates
        (`thrown`): the element has been registered but no listener is
        notified. */
    method FinishEvent(modelName: string, now: int) returns (thrown: bool, sent: seq<Notification>)
      requires Valid()
      modifies this, LatestEvent(modelName)
      ensures Valid()
      ensures Lookup(elements, modelName).Some?
      ensures old(Lookup(elements, modelName)).Some? ==> elements == old(elements)
      ensures old(Lookup(elements, modelName)).None? ==> |elements| == |old(elements)| + 1 && elements[..|old(elements)|] == old(elements)
      ensures var element := elements[Lookup(elements, modelName).value];
        if old(Lookup(elements, modelName)).None? then thrown && element.events == []
        else
          && (thrown <==> element.events == [])
          && (!thrown ==>
                var views := old(element.Views());
                element.Views() == views[|views| - 1 := Finished(views[|views| - 1], now)])
      ensures sent == if thrown then [] else NotificationsFor(listeners, elements)
      ensures listeners == old(listeners) && syncEngineState == old(syncEngineState)
    {
      var element := GetElement(modelName);
      label Registered:
      ghost var before := element.Views();
      assert old(Lookup(elements, modelName)).Some? ==> before == old(element.Views());
      thrown := element.FinishEvent(now);
      assert unchanged@Registered(this, elements);
      assert elements[Lookup(elements, modelName).value] == element;
      if thrown {
        return true, [];
      }
      assert element.Views() == before[|before| - 1 := Finished(before[|before| - 1], now)];
      sent := NotifyListeners();
    }

    /** errorEvent: records the exception on the latest event of that
        name's element; on a model with no events it throws as
        finishEvent does. */
    method ErrorEvent(modelName: string, exception: DataStoreException, now: int) returns (thrown: bool, sent: seq<Notification>)
      requires Valid()
      modifies this, LatestEvent(modelName)
      ensures Valid()
      ensures Lookup(elements, modelName).Some?
      ensures old(Lookup(elements, modelName)).Some? ==> elements == old(elements)
      ensures old(Lookup(elements, modelName)).None? ==> |elements| == |old(elements)| + 1 && elements[..|old(elements)|] == old(elements)
      ensures var element := elements[Lookup(elements, modelName).value];
        if old(Lookup(elements, modelName)).None? then thrown && element.events == []
        else
          && (thrown <==> element.events == [])
          && (!thrown ==>
                var views := old(element.Views());
                element.Views() == views[|views| - 1 := Errored(views[|views| - 1], exception, now)])
      ensures sent == if thrown then [] else NotificationsFor(listeners, elements)
      ensures listeners == old(listeners) && syncEngineState == old(syncEngineState)
    {
      var element := GetElement(modelName);
      label Registered:
      ghost var before := element.Views();
      assert old(Lookup(elements, modelName)).Some? ==> before == old(element.Views());
      thrown := element.ErrorEvent(exception, now);
      assert unchanged@Registered(this, elements);
      assert elements[Lookup(elements, modelName).value] == element;
      if thrown {
        return true, [];
      }
      assert element.Views() == before[|before| - 1 := Errored(before[|before| - 1], exception, now)];
      sent := NotifyListeners();
    }
  }

  /** The static `instance` field and getInstance(): one debugger, made on
      first use. */
  class DebuggerInstance {
    var instance: Option<DataStoreDebugger>

    constructor ()
      ensures instance == None
    {
      instance := None;
    }

    method GetInstance() returns (debugger: DataStoreDebugger)
      modifies this
      ensures instance == Some(debugger)
      ensures old(instance).Some? ==> debugger == old(instance).value
      ensures old(instance).None? ==>
        fresh(debugger) && debugger.Valid() && debugger.elements == [] && debugger.listeners == []
    {
      if instance.Some? {
        return instance.value;
      }
      debugger := new DataStoreDebugger();
      instance := Some(debugger);
    }
  }
}
