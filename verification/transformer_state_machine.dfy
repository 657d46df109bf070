/** The generic state-machine transform: a user state machine (an initial-state
    supplier, a transition and a completion callback) turned into a stream operator
    by the pipeline `materialize().scan(...).filter(...).flatMap(...)`.

    The callbacks are pure functions that return, besides their result, the
    notifications they recorded on the subscriber handed to them, in call order. */
module TransformerStateMachine {
  import opened Wrappers
  import opened Rx

  /** The transition callback: from the current state and an input value to the next
      state, with what it recorded. */
  type Transition<!S, -In, Out> = (S, In) -> (S, seq<Notification<Out>>)

  /** The completion callback: from the final state to what it recorded and whether
      a completion marker is appended after that. */
  type Completion<-S, Out> = S -> (seq<Notification<Out>>, bool)

  /** A configured transformer: its three callbacks, all present. */
  datatype Machine<!S, -In, Out> = Machine(
    initialState: () -> S,
    transition: Transition<S, In, Out>,
    completion: Completion<S, Out>)

  /** The only construction error: a required callback is null. */
  datatype ConfigError = NullPointerException

  /** `create(initialState, transition, completion)`: checks each callback for null,
      in that order, before building the transformer. */
  function Create<S, In, Out>(
    initialState: Option<() -> S>,
    transition: Option<Transition<S, In, Out>>,
    completion: Option<Completion<S, Out>>): (r: Result<Machine<S, In, Out>, ConfigError>)
    ensures r.Success? <==> initialState.Some? && transition.Some? && completion.Some?
    ensures r.Success? ==>
      && r.value.initialState == initialState.value
      && r.value.transition == transition.value
      && r.value.completion == completion.value
  {
    if initialState.None? then Failure(NullPointerException)
    else if transition.None? then Failure(NullPointerException)
    else if completion.None? then Failure(NullPointerException)
    else Success(Machine(initialState.value, transition.value, completion.value))
  }

  /** A record of the scan: the state after one input notification (None once the
      input has completed) and the notifications recorded while handling it. */
  datatype StateWithNotifications<S, Out> =
    StateWithNotifications(state: Option<S>, notifications: seq<Notification<Out>>)

  /** The seed of the scan: the initial state and no notifications, so the filter
      always drops it. */
  function Initial<S, In, Out>(m: Machine<S, In, Out>): (r: StateWithNotifications<S, Out>)
    ensures r.state == Some(m.initialState())
    ensures !NonEmptyNotifications(r)
  {
    StateWithNotifications(Some(m.initialState()), [])
  }

  /** The scan step `transformStateAndRecordNotifications`: an error is recorded and
      the state kept; a completion runs the completion callback, appends a
      completion marker when it returns true, and clears the state; a value runs
      the transition callback. The state is present whenever a callback needs it,
      since nothing follows a terminal notification in a materialized stream. */
  function Step<S, In, Out>(m: Machine<S, In, Out>, sn: StateWithNotifications<S, Out>, n: Notification<In>)
    : (r: StateWithNotifications<S, Out>)
    requires n.OnError? || sn.state.Some?
    ensures n.OnError? ==> r.state == sn.state && r.notifications == [OnError(n.error)]
    ensures n.OnCompleted? ==>
      var (emitted, complete) := m.completion(sn.state.value);
      && r.state == None
      && |r.notifications| == |emitted| + (if complete then 1 else 0)
      && r.notifications[..|emitted|] == emitted
      && (complete ==> r.notifications[|emitted|] == OnCompleted)
    ensures n.OnNext? ==>
      var (next, emitted) := m.transition(sn.state.value, n.value);
      r.state == Some(next) && r.notifications == emitted
  {
    match n
    case OnError(e) => StateWithNotifications(sn.state, [OnError(e)])
    case OnCompleted =>
      var (emitted, complete) := m.completion(sn.state.value);
      StateWithNotifications(None, emitted + if complete then [OnCompleted] else [])
    case OnNext(v) =>
      var (next, emitted) := m.transition(sn.state.value, v);
      StateWithNotifications(Some(next), emitted)
  }

  /** `scan(seed, step)`: the seed, then one record per notification, each computed
      from the record before it. */
  function Scan<S, In, Out>(m: Machine<S, In, Out>, sn: StateWithNotifications<S, Out>, ns: seq<Notification<In>>)
    : (rs: seq<StateWithNotifications<S, Out>>)
    requires WellFormed(ns) && (ns != [] ==> sn.state.Some?)
    ensures |rs| == |ns| + 1 && rs[0] == sn
    decreases |ns|
  {
    if ns == [] then [sn]
    else [sn] + Scan(m, Step(m, sn, ns[0]), ns[1..])
  }

  /** `nonEmptyNotifications`: keeps the records that recorded something. A record
      it drops would only have yielded an inner stream that completes at once. */
  predicate NonEmptyNotifications<S, Out>(sn: StateWithNotifications<S, Out>): (r: bool)
    ensures r <==> sn.notifications != []
    ensures !r ==> Dematerialize(sn.notifications) == [OnCompleted]
  {
    |sn.notifications| > 0
  }

  /** The recorded batches of a sequence of records, in order. */
  function NotificationLists<S, Out>(rs: seq<StateWithNotifications<S, Out>>): (bs: seq<seq<Notification<Out>>>)
    ensures |bs| == |rs|
    ensures forall i :: 0 <= i < |rs| ==> bs[i] == rs[i].notifications
  {
    if rs == [] then [] else [rs[0].notifications] + NotificationLists(rs[1..])
  }

  /** `call(source)` followed by a subscription: what the subscriber receives. The
      initial-state supplier runs once, when the pipeline is assembled; the outer
      stream of records completes once the upstream has terminated, since
      materialize turns an upstream error into a notification and then completes. */
  function Call<S, In, Out>(m: Machine<S, In, Out>, source: Source<In>): (out: seq<Notification<Out>>)
    ensures WellFormed(out)
    ensures !source.end.Open? ==> Terminated(out)
    ensures Terminated(out) && out[|out| - 1].OnCompleted? ==> source.end != Open
  {
    var initial := Initial(m);
    var records := Scan(m, initial, Materialize(source));
    var kept := Filter(NonEmptyNotifications, records);
    Flatten(NotificationLists(kept), !source.end.Open?)
  }

  /** The subscriber handed to the callbacks: it appends every notification it
      receives to a queue, in call order. */
  class Recorder<Out> {
    var notifications: seq<Notification<Out>>

    constructor ()
      ensures notifications == []
    {
      notifications := [];
    }

    method OnCompleted()
      modifies this
      ensures notifications == old(notifications) + [Notification.OnCompleted]
    {
      notifications := notifications + [Notification.OnCompleted];
    }

    method OnError(e: Throwable)
      modifies this
      ensures notifications == old(notifications) + [Notification.OnError(e)]
    {
      notifications := notifications + [Notification.OnError(e)];
    }

    method OnNext(t: Out)
      modifies this
      ensures notifications == old(notifications) + [Notification.OnNext(t)]
    {
      notifications := notifications + [Notification.OnNext(t)];
    }

    /** The calls a callback makes on the recorder, one per notification, in order. */
    method Receive(calls: seq<Notification<Out>>)
      modifies this
      ensures notifications == old(notifications) + calls
    {
      var i := 0;
      while i < |calls|
        invariant 0 <= i <= |calls|
        invariant notifications == old(notifications) + calls[..i]
      {
        match calls[i] {
          case OnNext(t) => OnNext(t);
          case OnCompleted => OnCompleted();
          case OnError(e) => OnError(e);
        }
        i := i + 1;
      }
    }
  }

  /** The scan step as the source runs it: a fresh recorder per notification, handed
      to the callback that the notification's kind selects. */
  method TransformStateAndRecordNotifications<S, In, Out>(
    m: Machine<S, In, Out>, sn: StateWithNotifications<S, Out>, n: Notification<In>)
    returns (r: StateWithNotifications<S, Out>)
    requires n.OnError? || sn.state.Some?
    ensures r == Step(m, sn, n)
    ensures n.OnError? ==> r.state == sn.state && r.notifications == [OnError(n.error)]
    ensures n.OnCompleted? ==>
      var (emitted, complete) := m.completion(sn.state.value);
      && r.state == None
      && |r.notifications| == |emitted| + (if complete then 1 else 0)
      && r.notifications[..|emitted|] == emitted
      && (complete ==> r.notifications[|emitted|] == OnCompleted)
    ensures n.OnNext? ==>
      var (next, emitted) := m.transition(sn.state.value, n.value);
      r.state == Some(next) && r.notifications == emitted
  {
    var recorder := new Recorder<Out>();
    if n.OnError? {
      recorder.OnError(n.error);
      r := StateWithNotifications(sn.state, recorder.notifications);
    } else if n.OnCompleted? {
      var (emitted, complete) := m.completion(sn.state.value);
      recorder.Receive(emitted);
      if complete {
        recorder.OnCompleted();
      }
      r := StateWithNotifications(None, recorder.notifications);
    } else {
      var (next, emitted) := m.transition(sn.state.value, n.value);
      recorder.Receive(emitted);
      r := StateWithNotifications(Some(next), recorder.notifications);
    }
  }
}
