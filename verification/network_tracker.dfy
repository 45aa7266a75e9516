/**
  The connectivity tracker of the panel viewer as a pure state machine.

  The tracker holds whether it last reported the network as connected,
  whether the one-shot SSL setup has finished (the gate), and the ordered
  list of registered listeners. Every operation is one atomic step that
  returns the next state together with the notifications it delivered, in
  delivery order. The platform's connectivity query is an input of the
  step rather than a call.
 */
module NetworkTracker {
  import ListenerList

  /** A registered listener is known only by its identity. */
  type ListenerId = nat

  /** The two callbacks of a listener. */
  datatype Note = Connected | Disconnected

  /** One callback delivered to one listener. */
  datatype Event = Event(listener: ListenerId, note: Note)

  /** What the platform reports as the active network when the tracker asks:
      nothing (no connectivity service, or no active network), or a network
      that is or is not connected. */
  datatype NetworkInfo = NoActiveNetwork | ActiveNetwork(isConnected: bool)

  /** How the background SSL setup ended. The tracker opens its gate either
      way. */
  datatype SetupOutcome = SetupSucceeded | SetupFailed

  datatype Tracker = Tracker(connected: bool, initialized: bool, listeners: seq<ListenerId>)

  /** The next state and the callbacks one operation delivered. */
  datatype Step = Step(tracker: Tracker, events: seq<Event>)

  /** The network counts as active only when an active network exists and
      reports itself connected. */
  predicate IsActive(info: NetworkInfo)
    ensures IsActive(info) <==> info == ActiveNetwork(true)
  {
    info.ActiveNetwork? && info.isConnected
  }

  /** The tracker right after construction, before the SSL setup finishes. */
  function Init(): (t: Tracker)
    ensures !t.connected && !t.initialized && t.listeners == []
  {
    Tracker(false, false, [])
  }

  /** The value `isConnected` reports: the flag as the last evaluation left
      it. Which value that is, is fixed by `UpdateStatus` and `CompleteInit`. */
  function IsConnected(t: Tracker): (r: bool)
    ensures r <==> t.connected
  {
    t.connected
  }

  /** One `note` callback for every listener entry, in list order; an entry
      that appears twice is called twice. */
  function Notify(listeners: seq<ListenerId>, note: Note): (r: seq<Event>)
    ensures |r| == |listeners|
    ensures forall i :: 0 <= i < |r| ==> r[i] == Event(listeners[i], note)
  {
    if |listeners| == 0 then []
    else [Event(listeners[0], note)] + Notify(listeners[1..], note)
  }

  /** Re-evaluates connectivity against what the platform reports. Nothing
      happens while the gate is closed; once it is open, the state follows
      the observation and the listeners hear about it only on a change. */
  function UpdateStatus(t: Tracker, info: NetworkInfo): (r: Step)
    // the listener list and the gate are never touched
    ensures r.tracker.listeners == t.listeners
    ensures r.tracker.initialized == t.initialized
    // gate closed: the observation is dropped
    ensures !t.initialized ==> r.tracker == t && r.events == []
    // gate open: the tracker takes over the observed activity
    ensures t.initialized ==> r.tracker.connected == IsActive(info)
    // callbacks are delivered only on a change of state
    ensures r.events != [] ==> r.tracker.connected != t.connected
    // on a change, every listener entry hears the new state once, in order
    ensures r.tracker.connected != t.connected ==>
              && |r.events| == |t.listeners|
              && forall i :: 0 <= i < |r.events| ==>
                   r.events[i] == Event(t.listeners[i], if r.tracker.connected then Connected else Disconnected)
  {
    if !t.initialized then Step(t, [])
    else if IsActive(info) then
      if !t.connected then Step(t.(connected := true), Notify(t.listeners, Connected))
      else Step(t, [])
    else
      if t.connected then Step(t.(connected := false), Notify(t.listeners, Disconnected))
      else Step(t, [])
  }

  /** Registers `l` at the end of the list. */
  function AddListener(t: Tracker, l: ListenerId): (r: Tracker)
    ensures r.connected == t.connected && r.initialized == t.initialized
    ensures |r.listeners| == |t.listeners| + 1
    ensures r.listeners[..|t.listeners|] == t.listeners && r.listeners[|t.listeners|] == l
  {
    t.(listeners := ListenerList.Append(t.listeners, l))
  }

  /** Unregisters the first entry equal to `l`; unregistering an unknown
      listener changes nothing. */
  function RemoveListener(t: Tracker, l: ListenerId): (r: Tracker)
    ensures r.connected == t.connected && r.initialized == t.initialized
    ensures l !in t.listeners ==> r == t
    ensures l in t.listeners ==>
              exists i :: 0 <= i < |t.listeners| && t.listeners[i] == l && l !in t.listeners[..i]
                          && r.listeners == t.listeners[..i] + t.listeners[i + 1..]
  {
    var r := t.(listeners := ListenerList.RemoveFirst(t.listeners, l));
    assert l in t.listeners ==>
             var i := ListenerList.IndexOf(t.listeners, l);
             t.listeners[i] == l && r.listeners == t.listeners[..i] + t.listeners[i + 1..];
    r
  }

  /** The end of the background SSL setup: whatever its outcome, the gate
      opens and the status is evaluated once, since a change may have been
      dropped while the gate was closed. */
  function CompleteInit(t: Tracker, outcome: SetupOutcome, info: NetworkInfo): (r: Step)
    ensures r.tracker.initialized
    ensures r.tracker.listeners == t.listeners
    ensures r.tracker.connected == IsActive(info)
    ensures t.connected == IsActive(info) ==> r.events == []
    ensures t.connected != IsActive(info) ==>
              r.events == Notify(t.listeners, if IsActive(info) then Connected else Disconnected)
  {
    UpdateStatus(t.(initialized := true), info)
  }

  /** Tear-down: the list is emptied; the reported state and the gate stay.
      Unsubscribing from the platform never fails towards the caller. */
  function Terminate(t: Tracker): (r: Tracker)
    ensures r.listeners == []
    ensures r.connected == t.connected && r.initialized == t.initialized
  {
    t.(listeners := [])
  }
}
