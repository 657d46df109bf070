/** The parts of the reactive-streams library the transform is assembled from, as
    functions on finite sequences: notifications, materialize, filter, dematerialize
    and flatMap. Subscription, backpressure and scheduling are not modelled; a
    stream is the finite sequence of notifications a subscriber receives. */
module Rx {

  /** The error carried by an onError notification. */
  datatype Throwable = Throwable(message: string)

  /** One event of a stream, as a value (rx.Notification). */
  datatype Notification<+T> = OnNext(value: T) | OnCompleted | OnError(error: Throwable)
  {
    /** A terminal notification ends the stream it belongs to. */
    predicate IsTerminal() { !OnNext? }
  }

  /** The stream contract: a terminal notification occurs only in the last position,
      so there is at most one of them. */
  predicate WellFormed<T>(ns: seq<Notification<T>>)
  {
    forall i :: 0 <= i < |ns| - 1 ==> ns[i].OnNext?
  }

  /** The stream has ended: its last notification is terminal. */
  predicate Terminated<T>(ns: seq<Notification<T>>)
  {
    ns != [] && ns[|ns| - 1].IsTerminal()
  }

  /** How a finite observation of an upstream source ends: not yet, normally, or
      with an error. */
  datatype End = Open | Completed | Errored(error: Throwable)

  /** A finite observation of an upstream source: its values in order, then its end. */
  datatype Source<T> = Source(values: seq<T>, end: End)

  /** `materialize()`: every event of the source becomes a notification value. */
  function Materialize<T>(src: Source<T>): (ns: seq<Notification<T>>)
    ensures WellFormed(ns)
    ensures |ns| == |src.values| + (if src.end.Open? then 0 else 1)
    ensures forall i :: 0 <= i < |src.values| ==> ns[i] == OnNext(src.values[i])
    ensures src.end.Completed? ==> ns[|ns| - 1] == OnCompleted
    ensures src.end.Errored? ==> ns[|ns| - 1] == OnError(src.end.error)
    decreases |src.values|
  {
    if src.values == [] then
      match src.end
      case Open => []
      case Completed => [OnCompleted]
      case Errored(e) => [OnError(e)]
    else
      [OnNext(src.values[0])] + Materialize(Source(src.values[1..], src.end))
  }

  /** `filter(p)`: the elements satisfying `p`, in their original order. */
  function Filter<T>(p: T -> bool, xs: seq<T>): (r: seq<T>)
    ensures |r| <= |xs|
    ensures forall i :: 0 <= i < |r| ==> p(r[i])
  {
    if xs == [] then []
    else (if p(xs[0]) then [xs[0]] else []) + Filter(p, xs[1..])
  }

  /** The position of the first terminal notification of `b`, or |b| if it has none. */
  function FirstTerminal<T>(b: seq<Notification<T>>): (k: nat)
    ensures k <= |b|
    ensures forall i :: 0 <= i < k ==> b[i].OnNext?
    ensures k < |b| ==> b[k].IsTerminal()
  {
    if b == [] || b[0].IsTerminal() then 0 else 1 + FirstTerminal(b[1..])
  }

  /** The values an inner stream built from `b` passes on: those before the first
      terminal notification. */
  function Emitted<T>(b: seq<Notification<T>>): seq<Notification<T>>
  {
    b[..FirstTerminal(b)]
  }

  /** How an inner stream built from `b` ends: with the first terminal notification
      of `b`, or by completing when `b` is exhausted. */
  function InnerEnd<T>(b: seq<Notification<T>>): Notification<T>
  {
    var k := FirstTerminal(b);
    if k < |b| then b[k] else OnCompleted
  }

  /** `Observable.from(b).dematerialize()`, as the notifications of that inner stream:
      the leading values of `b`, then its first terminal notification, or a
      completion when `b` has none. Nothing after the first terminal is emitted. */
  function Dematerialize<T>(b: seq<Notification<T>>): (r: seq<Notification<T>>)
    ensures WellFormed(r) && Terminated(r)
    ensures |r| - 1 <= |b| && r[..|r| - 1] == b[..|r| - 1]
    ensures |r| - 1 < |b| ==> r[|r| - 1] == b[|r| - 1]
    ensures |r| - 1 == |b| ==> r[|r| - 1] == OnCompleted
  {
    Emitted(b) + [InnerEnd(b)]
  }

  /** Concatenation of batches, in order. */
  function Concat<T>(bs: seq<seq<T>>): (r: seq<T>)
    ensures bs != [] ==> bs[0] <= r
  {
    if bs == [] then [] else bs[0] + Concat(bs[1..])
  }

  /** `flatMap(b -> Observable.from(b).dematerialize())` over a finite outer stream of
      batches, run on one thread: each batch becomes the inner stream
      `Dematerialize(batch)`, and the inners are subscribed one after the other.
      An inner's completion only ends that inner; an inner's error ends the whole
      output at once; when the outer stream has completed and every inner has, the
      output completes. */
  function Flatten<T>(batches: seq<seq<Notification<T>>>, outerCompleted: bool): (r: seq<Notification<T>>)
    ensures WellFormed(r)
    ensures outerCompleted ==> Terminated(r)
    ensures Terminated(r) && r[|r| - 1].OnCompleted? ==> outerCompleted
    decreases |batches|
  {
    if batches == [] then
      (if outerCompleted then [OnCompleted] else [])
    else if InnerEnd(batches[0]).OnError? then
      Dematerialize(batches[0])
    else
      var rest := Flatten(batches[1..], outerCompleted);
      assert forall i :: 0 <= i < |Emitted(batches[0])| ==> Emitted(batches[0])[i].OnNext?;
      Emitted(batches[0]) + rest
  }
}
