/** ActionListener (agent/agentmodule.py:220-300): the buffer of activity
    events and typed text that send_data turns into one observation per
    interval. The wall clock is a parameter (`now`); the file-system observer
    and the keyboard and mouse listeners are not part of this model. */
module Listener {
  import opened Wrappers

  /** A raw activity event dict. `data` is its "data" entry (None when the
      dict has none); `fields` are its other entries. */
  datatype ActivityEvent = ActivityEvent(data: Option<map<string, string>>, fields: map<string, string>)

  /** The dict send_data returns; its "status", "apps" and "info" entries are
      always None and are left out. `timestamp` is in epoch seconds. */
  datatype Observation = Observation(timestamp: real, duration: int, userInput: string, hotKeys: seq<ActivityEvent>)

  datatype ListenerError =
    | NotStarted   // last_post_time is still None: start() was never called
    | MissingData  // a buffered event has no "data" entry (KeyError)

  /** Whether `hot_key` is one of the keys of the event's data. */
  predicate HasHotKey(e: ActivityEvent)
    requires e.data.Some?
  {
    "hot_key" in e.data.value
  }

  predicate AllHaveData(events: seq<ActivityEvent>)
  {
    forall i :: 0 <= i < |events| ==> events[i].data.Some?
  }

  /** The "hot-keys" entry: the events whose data has a `hot_key` key, in
      their original order. */
  function HotKeys(events: seq<ActivityEvent>): (r: seq<ActivityEvent>)
    requires AllHaveData(events)
    ensures |r| <= |events|
    ensures forall e :: e in r <==> e in events && HasHotKey(e)
  {
    if events == [] then []
    else (if HasHotKey(events[0]) then [events[0]] else []) + HotKeys(events[1..])
  }

  /** Filtering a buffer that grew in two parts filters each part in turn:
      the order of the kept events is the order in which they were pushed. */
  lemma {:induction false} HotKeysAppend(a: seq<ActivityEvent>, b: seq<ActivityEvent>)
    requires AllHaveData(a) && AllHaveData(b)
    ensures AllHaveData(a + b)
    ensures HotKeys(a + b) == HotKeys(a) + HotKeys(b)
  {
    assert AllHaveData(a + b) by {
      forall i | 0 <= i < |a + b| ensures (a + b)[i].data.Some? {
        if i >= |a| { assert (a + b)[i] == b[i - |a|]; }
      }
    }
    if a == [] {
      assert a + b == b;
    } else {
      assert (a + b)[1..] == a[1..] + b;
      assert AllHaveData(a[1..]) by {
        forall i | 0 <= i < |a[1..]| ensures a[1..][i].data.Some? { assert a[1..][i] == a[i + 1]; }
      }
      HotKeysAppend(a[1..], b);
    }
  }

  /** Filtering twice keeps the same events as filtering once. */
  lemma {:induction false} HotKeysIdempotent(events: seq<ActivityEvent>)
    requires AllHaveData(events)
    ensures AllHaveData(HotKeys(events))
    ensures HotKeys(HotKeys(events)) == HotKeys(events)
  {
    if events != [] {
      var head := if HasHotKey(events[0]) then [events[0]] else [];
      assert AllHaveData(events[1..]) by {
        forall i | 0 <= i < |events[1..]| ensures events[1..][i].data.Some? { assert events[1..][i] == events[i + 1]; }
      }
      HotKeysIdempotent(events[1..]);
      assert AllHaveData(head);
      HotKeysAppend(head, HotKeys(events[1..]));
      if head != [] {
        assert head[1..] == [];
      }
    }
  }

  class ActionListener {
    var rawEvents: seq<ActivityEvent>
    var eventData: seq<ActivityEvent>
    /** The text the user typed since the last flush. */
    var textContent: string
    var intervalSeconds: int
    /** When the current interval began; None until Start. */
    var lastPostTime: Option<real>

    constructor (intervalSeconds: int)
      ensures rawEvents == [] && eventData == [] && textContent == ""
      ensures this.intervalSeconds == intervalSeconds && lastPostTime == None
    {
      rawEvents, eventData, textContent := [], [], "";
      this.intervalSeconds := intervalSeconds;
      lastPostTime := None;
    }

    /** start: the first interval begins now. */
    method Start(now: real)
      modifies this
      ensures lastPostTime == Some(now)
      ensures rawEvents == old(rawEvents) && eventData == old(eventData)
      ensures textContent == old(textContent) && intervalSeconds == old(intervalSeconds)
    {
      lastPostTime := Some(now);
    }

    /** reset_data: empties the event buffer and the typed text. */
    method ResetData()
      modifies this
      ensures eventData == [] && textContent == ""
      ensures rawEvents == old(rawEvents) && intervalSeconds == old(intervalSeconds)
      ensures lastPostTime == old(lastPostTime)
    {
      eventData := [];
      textContent := "";
    }

    /** push_event: buffers one event, with no filtering. */
    method PushEvent(event: ActivityEvent)
      modifies this
      ensures eventData == old(eventData) + [event]
      ensures rawEvents == old(rawEvents) && textContent == old(textContent)
      ensures intervalSeconds == old(intervalSeconds) && lastPostTime == old(lastPostTime)
    {
      eventData := eventData + [event];
    }

    /** send_data: the observation of the interval that began at
        last_post_time, lasting interval_seconds, with the typed text and the
        hot-key events; the next interval begins now and the buffers are
        emptied. Raises, changing nothing, before start() or when a buffered
        event has no "data" entry. */
    method SendData(now: real) returns (r: Result<Observation, ListenerError>)
      modifies this
      ensures old(lastPostTime).None? ==> r == Failure(NotStarted)
      ensures old(lastPostTime).Some? && !AllHaveData(old(eventData)) ==> r == Failure(MissingData)
      ensures r.Failure? ==>
        eventData == old(eventData) && textContent == old(textContent) && lastPostTime == old(lastPostTime)
      ensures r.Success? <==> old(lastPostTime).Some? && AllHaveData(old(eventData))
      ensures r.Success? ==>
        r.value == Observation(old(lastPostTime).value, intervalSeconds, old(textContent), HotKeys(old(eventData))) &&
        eventData == [] && textContent == "" && lastPostTime == Some(now)
      ensures rawEvents == old(rawEvents) && intervalSeconds == old(intervalSeconds)
    {
      if lastPostTime.None? {
        return Failure(NotStarted);
      }
      if !(forall i | 0 <= i < |eventData| :: eventData[i].data.Some?) {
        return Failure(MissingData);
      }
      var observation := Observation(lastPostTime.value, intervalSeconds, textContent, HotKeys(eventData));
      lastPostTime := Some(now);
      ResetData();
      r := Success(observation);
    }
  }

  /** Two flushes after start: each observation's timestamp is the time the
      previous interval began (start, then the first flush), and the second
      observation no longer holds what the first reported. */
  method ConsecutiveIntervals(interval: int, started: real, firstFlush: real, secondFlush: real, event: ActivityEvent)
    returns (first: Result<Observation, ListenerError>, second: Result<Observation, ListenerError>)
    requires event.data.Some?
    ensures first == Success(Observation(started, interval, "", if HasHotKey(event) then [event] else []))
    ensures second == Success(Observation(firstFlush, interval, "", []))
  {
    var listener := new ActionListener(interval);
    listener.Start(started);
    listener.PushEvent(event);
    assert listener.eventData == [event] && AllHaveData([event]);
    assert [event][1..] == [];
    assert HotKeys([event]) == if HasHotKey(event) then [event] else [];
    first := listener.SendData(firstFlush);
    assert AllHaveData(listener.eventData);
    second := listener.SendData(secondFlush);
  }
}
