/**
  Whole histories of the connectivity tracker: a sequence of operations,
  each applied atomically, and the callbacks delivered along the way.
  The lemmas here state the observable protocol: nothing before the gate
  opens, the gate never closes, callbacks only on transitions and in
  registration order, silence after tear-down, and the last observation
  deciding the state.
 */
module TrackerRuns {
  import ListenerList
  import opened NetworkTracker

  /** The operations a caller or the platform can perform on the tracker. */
  datatype Op =
    | Signal(info: NetworkInfo)                        // a connectivity broadcast
    | SetupDone(outcome: SetupOutcome, info: NetworkInfo) // the SSL setup finished
    | Add(l: ListenerId)
    | Remove(l: ListenerId)
    | Stop                                             // terminate

  /** Does the operation query the platform's connectivity? */
  predicate Observes(op: Op) {
    op.Signal? || op.SetupDone?
  }

  function Apply(t: Tracker, op: Op): (r: Step)
    ensures !Observes(op) ==> r.events == [] && r.tracker.connected == t.connected
    ensures !op.SetupDone? ==> r.tracker.initialized == t.initialized
    ensures op.SetupDone? ==> r.tracker.initialized
  {
    match op
    case Signal(info) => UpdateStatus(t, info)
    case SetupDone(outcome, info) => CompleteInit(t, outcome, info)
    case Add(l) => Step(AddListener(t, l), [])
    case Remove(l) => Step(RemoveListener(t, l), [])
    case Stop => Step(Terminate(t), [])
  }

  predicate NoSetup(ops: seq<Op>) {
    forall i :: 0 <= i < |ops| ==> !ops[i].SetupDone?
  }

  predicate NoObservation(ops: seq<Op>) {
    forall i :: 0 <= i < |ops| ==> !Observes(ops[i])
  }

  /** Applies the operations in order and collects every callback. */
  function Run(t: Tracker, ops: seq<Op>): (r: Step)
    // the gate is written once and never closes again
    ensures t.initialized ==> r.tracker.initialized
    ensures !NoSetup(ops) ==> r.tracker.initialized
    ensures NoSetup(ops) ==> r.tracker.initialized == t.initialized
    // before the gate opens, signals are dropped: no state change, no callback
    ensures !t.initialized && NoSetup(ops) ==> r.tracker.connected == t.connected && r.events == []
    // operations that do not query the network never change the reported state
    ensures NoObservation(ops) ==> r.tracker.connected == t.connected && r.events == []
    decreases |ops|
  {
    if |ops| == 0 then Step(t, [])
    else
      var s := Apply(t, ops[0]);
      var rest := Run(s.tracker, ops[1..]);
      assert !NoSetup(ops) && !ops[0].SetupDone? ==> !NoSetup(ops[1..]) by {
        if !NoSetup(ops) && !ops[0].SetupDone? {
          var i :| 0 <= i < |ops| && ops[i].SetupDone?;
          assert ops[1..][i - 1] == ops[i];
        }
      }
      Step(rest.tracker, s.events + rest.events)
  }

  /** One unfolding of `Run`: the first operation, then the rest. */
  lemma RunCons(t: Tracker, ops: seq<Op>)
    requires |ops| > 0
    ensures var s := Apply(t, ops[0]);
            var rest := Run(s.tracker, ops[1..]);
            Run(t, ops) == Step(rest.tracker, s.events + rest.events)
  {
  }

  /** Running two histories one after the other is running their
      concatenation. */
  lemma {:induction false} RunAppend(t: Tracker, a: seq<Op>, b: seq<Op>)
    ensures var ra := Run(t, a);
            var rb := Run(ra.tracker, b);
            Run(t, a + b) == Step(rb.tracker, ra.events + rb.events)
    decreases |a|
  {
    if |a| > 0 {
      var s := Apply(t, a[0]);
      var ra := Run(s.tracker, a[1..]);
      var rb := Run(ra.tracker, b);
      assert (a + b)[0] == a[0];
      assert (a + b)[1..] == a[1..] + b;
      RunAppend(s.tracker, a[1..], b);
      RunCons(t, a);
      RunCons(t, a + b);
      assert s.events + (ra.events + rb.events) == (s.events + ra.events) + rb.events;
    } else {
      assert a + b == b;
    }
  }

  /** A repeated observation is a no-op: the second of two equal signals
      changes nothing and delivers nothing. */
  lemma UpdateStatusIdempotent(t: Tracker, info: NetworkInfo)
    ensures var s := UpdateStatus(t, info);
            UpdateStatus(s.tracker, info) == Step(s.tracker, [])
  {
  }

  /** Two equal signals in a row deliver at most one round of callbacks:
      exactly those of the first. */
  lemma {:induction false} EqualSignalsNotifyOnce(t: Tracker, info: NetworkInfo)
    ensures Run(t, [Signal(info), Signal(info)]) == Run(t, [Signal(info)])
  {
    var s := UpdateStatus(t, info);
    assert [Signal(info), Signal(info)][1..] == [Signal(info)];
    UpdateStatusIdempotent(t, info);
    assert Run(s.tracker, [Signal(info)]) == Step(s.tracker, []);
  }

  /** After the last observation of a history, the reported state is what
      that observation said, provided the gate was open by then: signals
      only ever keep the newest state and nothing is replayed. */
  lemma {:induction false} LastObservationWins(t: Tracker, ops: seq<Op>, k: nat)
    requires k < |ops| && Observes(ops[k])
    requires forall j :: k < j < |ops| ==> !Observes(ops[j])
    requires t.initialized || exists j :: 0 <= j <= k && ops[j].SetupDone?
    ensures IsConnected(Run(t, ops).tracker) == IsActive(ops[k].info)
  {
    var pre, mid, post := ops[..k], [ops[k]], ops[k + 1..];
    assert ops == pre + mid + post;
    RunAppend(t, pre + mid, post);
    RunAppend(t, pre, mid);
    var t1 := Run(t, pre).tracker;
    assert ops[k].Signal? ==> t1.initialized by {
      if ops[k].Signal? && !t.initialized {
        var j :| 0 <= j <= k && ops[j].SetupDone?;
        assert j < k && pre[j] == ops[j];
      }
    }
    assert mid[1..] == [];
    assert NoObservation(post) by {
      forall i | 0 <= i < |post|
        ensures !Observes(post[i])
      {
        assert post[i] == ops[k + 1 + i];
      }
    }
  }

  /** Once the listener list is empty it stays empty until someone is added,
      and no callback is delivered meanwhile. */
  lemma {:induction false} SilentWithoutListeners(t: Tracker, ops: seq<Op>)
    requires t.listeners == []
    requires forall i :: 0 <= i < |ops| ==> !ops[i].Add?
    ensures Run(t, ops).events == []
    ensures Run(t, ops).tracker.listeners == []
    decreases |ops|
  {
    if |ops| > 0 {
      var s := Apply(t, ops[0]);
      assert s.tracker.listeners == [] && s.events == [] by {
        match ops[0]
        case Signal(info) =>
        case SetupDone(outcome, info) =>
        case Add(l) =>
        case Remove(l) => assert l !in t.listeners;
        case Stop =>
      }
      assert forall i :: 0 <= i < |ops[1..]| ==> ops[1..][i] == ops[i + 1];
      SilentWithoutListeners(s.tracker, ops[1..]);
    }
  }

  /** After `terminate`, no later signal or setup completion reaches anyone
      unless a listener is registered again; the reported state survives
      the tear-down. */
  lemma TerminateSilences(t: Tracker, ops: seq<Op>)
    requires forall i :: 0 <= i < |ops| ==> !ops[i].Add?
    ensures Run(t, [Stop] + ops).events == []
    ensures IsConnected(Run(t, [Stop]).tracker) == IsConnected(t)
  {
    RunAppend(t, [Stop], ops);
    SilentWithoutListeners(Terminate(t), ops);
  }

  /** Signals received while the SSL setup is still running are dropped:
      a fresh tracker stays disconnected and silent however many arrive. */
  lemma DroppedBeforeSetup(ops: seq<Op>)
    requires NoSetup(ops)
    ensures !IsConnected(Run(Init(), ops).tracker)
    ensures Run(Init(), ops).events == []
    ensures !Run(Init(), ops).tracker.initialized
  {
  }

  /** When the setup finishes and the network is then active, each listener
      registered by that time hears `connected` exactly once, in
      registration order, whether the setup succeeded or failed. */
  lemma {:induction false} SetupCompletionConnects(ops: seq<Op>, outcome: SetupOutcome, info: NetworkInfo)
    requires NoSetup(ops) && IsActive(info)
    ensures var before := Run(Init(), ops).tracker;
            var r := Run(Init(), ops + [SetupDone(outcome, info)]);
            && IsConnected(r.tracker) && r.tracker.initialized
            && |r.events| == |before.listeners|
            && forall i :: 0 <= i < |r.events| ==> r.events[i] == Event(before.listeners[i], Connected)
  {
    RunAppend(Init(), ops, [SetupDone(outcome, info)]);
    var before := Run(Init(), ops).tracker;
    assert !before.connected && !before.initialized;
    assert [SetupDone(outcome, info)][1..] == [];
    assert Run(before, [SetupDone(outcome, info)]).events == CompleteInit(before, outcome, info).events + [];
  }

  /** A listener registered once and then removed gets no callback from a
      later signal. */
  lemma {:induction false} RemovedListenerHearsNothing(t: Tracker, l: ListenerId, info: NetworkInfo)
    requires multiset(t.listeners)[l] <= 1
    ensures forall e :: e in UpdateStatus(RemoveListener(t, l), info).events ==> e.listener != l
  {
    var u := RemoveListener(t, l);
    ListenerList.RemoveOnlyEntry(t.listeners, l);
    var r := UpdateStatus(u, info);
    forall e | e in r.events
      ensures e.listener != l
    {
      var i :| 0 <= i < |r.events| && r.events[i] == e;
      assert e.listener == u.listeners[i];
    }
  }

  /** Registering a new listener and unregistering it again restores the
      tracker. */
  lemma AddThenRemove(t: Tracker, l: ListenerId)
    requires l !in t.listeners
    ensures RemoveListener(AddListener(t, l), l) == t
  {
    ListenerList.RemoveAppended(t.listeners, l);
  }

  /** Registering a listener twice and unregistering it once leaves one
      registration, now at the end of the list. */
  lemma DuplicateRegistration(t: Tracker, l: ListenerId)
    requires l in t.listeners
    ensures RemoveListener(AddListener(t, l), l).listeners ==
            RemoveListener(t, l).listeners + [l]
  {
    ListenerList.RemoveAfterDuplicateAppend(t.listeners, l);
  }

  /** A setup that fails still opens the gate; a later active signal then
      connects and calls both listeners, in registration order. */
  lemma FailedSetupThenSignal()
    ensures var r := Run(Init(), [Add(1), Add(2), SetupDone(SetupFailed, NoActiveNetwork),
                                  Signal(ActiveNetwork(true))]);
            && IsConnected(r.tracker)
            && r.events == [Event(1, Connected), Event(2, Connected)]
  {
    var signal, setup := Signal(ActiveNetwork(true)), SetupDone(SetupFailed, NoActiveNetwork);
    var t3, t4 := Tracker(false, true, [1, 2]), Tracker(true, true, [1, 2]);
    var evs := [Event(1, Connected), Event(2, Connected)];
    assert [signal][1..] == [];
    assert Run(t3, [signal]) == Step(t4, evs);
    assert [setup, signal][1..] == [signal];
    assert Run(Tracker(false, false, [1, 2]), [setup, signal]) == Step(t4, evs);
    assert [Add(2), setup, signal][1..] == [setup, signal];
    assert [1] + [2] == [1, 2];
    assert Run(Tracker(false, false, [1]), [Add(2), setup, signal]) == Step(t4, evs);
    assert [Add(1), Add(2), setup, signal][1..] == [Add(2), setup, signal];
    assert [] + [1] == [1];
  }

  /** Two listeners on a connected tracker; the network goes away and comes
      back: each listener hears `disconnected` once, then `connected` once. */
  lemma DropAndReconnect()
    ensures var t := Tracker(true, true, [1, 2]);
            var r := Run(t, [Signal(ActiveNetwork(false)), Signal(NoActiveNetwork), Signal(ActiveNetwork(true))]);
            && IsConnected(r.tracker)
            && r.events == [Event(1, Disconnected), Event(2, Disconnected),
                            Event(1, Connected), Event(2, Connected)]
  {
    var t := Tracker(true, true, [1, 2]);
    var ops := [Signal(ActiveNetwork(false)), Signal(NoActiveNetwork), Signal(ActiveNetwork(true))];
    RunAppend(t, ops[..1], ops[1..]);
    assert ops == ops[..1] + ops[1..];
    RunAppend(t.(connected := false), ops[1..2], ops[2..]);
    assert ops[1..] == ops[1..2] + ops[2..];
  }
}
