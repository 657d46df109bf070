/** Properties of the transform: the scan is a fold of the step over the input, the
    seed and the empty-batch filter contribute nothing, the output is produced as
    the input arrives, and what a subscriber receives for a completed or failed
    input, stated against a direct fold of the callbacks over the input values. */
module TransformerStateMachineProperties {
  import opened Wrappers
  import opened Rx
  import opened TransformerStateMachine

  /** The state after a run of values: the transition callback folded over them. */
  function FoldState<S, In, Out>(transition: Transition<S, In, Out>, s: S, vs: seq<In>): S
    decreases |vs|
  {
    if vs == [] then s else FoldState(transition, transition(s, vs[0]).0, vs[1..])
  }

  /** What the transition callback records for each value, threading the state. */
  function TransitionBatches<S, In, Out>(transition: Transition<S, In, Out>, s: S, vs: seq<In>)
    : (bs: seq<seq<Notification<Out>>>)
    ensures |bs| == |vs|
    decreases |vs|
  {
    if vs == [] then []
    else [transition(s, vs[0]).1] + TransitionBatches(transition, transition(s, vs[0]).0, vs[1..])
  }

  /** What handling the end of the input records, from the final state: nothing while
      open; the completion callback's emissions and its optional marker; or the
      error alone. */
  function EndBatches<S, Out>(completion: Completion<S, Out>, s: S, end: End): seq<seq<Notification<Out>>>
  {
    match end
    case Open => []
    case Completed => [completion(s).0 + (if completion(s).1 then [OnCompleted] else [])]
    case Errored(e) => [[OnError(e)]]
  }

  /** The state held after the end of the input: cleared by a completion, kept
      through an error. */
  function EndState<S>(s: S, end: End): Option<S>
  {
    if end.Completed? then None else Some(s)
  }

  /** The values every batch passes on, in order. */
  function AllEmitted<T>(bs: seq<seq<Notification<T>>>): seq<Notification<T>>
  {
    if bs == [] then [] else Emitted(bs[0]) + AllEmitted(bs[1..])
  }

  /** No batch ends its inner stream with an error. */
  predicate NoInnerError<T>(bs: seq<seq<Notification<T>>>)
  {
    forall i :: 0 <= i < |bs| ==> !InnerEnd(bs[i]).OnError?
  }

  // ---------------------------------------------------------------------------
  // Unfolding helpers

  lemma MaterializeCons<T>(vs: seq<T>, end: End)
    requires vs != []
    ensures Materialize(Source(vs, end)) == [OnNext(vs[0])] + Materialize(Source(vs[1..], end))
  {
  }

  lemma ScanCons<S, In, Out>(
    m: Machine<S, In, Out>, sn: StateWithNotifications<S, Out>, n: Notification<In>, ns: seq<Notification<In>>)
    requires WellFormed([n] + ns) && sn.state.Some?
    ensures WellFormed(ns) && (ns != [] ==> Step(m, sn, n).state.Some?)
    ensures Scan(m, sn, [n] + ns) == [sn] + Scan(m, Step(m, sn, n), ns)
  {
    assert ([n] + ns)[0] == n && ([n] + ns)[1..] == ns;
    assert ns != [] ==> ([n] + ns)[0].OnNext?;
  }

  lemma NotificationListsCons<S, Out>(r: StateWithNotifications<S, Out>, rs: seq<StateWithNotifications<S, Out>>)
    ensures NotificationLists([r] + rs) == [r.notifications] + NotificationLists(rs)
  {
    assert ([r] + rs)[1..] == rs;
  }

  lemma ConcatCons<T>(b: seq<T>, bs: seq<seq<T>>)
    ensures Concat([b] + bs) == b + Concat(bs)
  {
    assert ([b] + bs)[0] == b && ([b] + bs)[1..] == bs;
  }

  lemma FlattenCons<T>(b: seq<Notification<T>>, bs: seq<seq<Notification<T>>>, outerCompleted: bool)
    ensures Flatten([b] + bs, outerCompleted)
         == if InnerEnd(b).OnError? then Dematerialize(b) else Emitted(b) + Flatten(bs, outerCompleted)
  {
    assert ([b] + bs)[0] == b && ([b] + bs)[1..] == bs;
  }

  // ---------------------------------------------------------------------------
  // The scan

  /** The scan yields one record per notification, in order, each the step applied
      to the record before it; a callback is only ever run with a state present. */
  lemma {:induction false} ScanIsFold<S, In, Out>(
    m: Machine<S, In, Out>, sn: StateWithNotifications<S, Out>, ns: seq<Notification<In>>, i: nat)
    requires WellFormed(ns) && (ns != [] ==> sn.state.Some?)
    requires i < |ns|
    ensures ns[i].OnError? || Scan(m, sn, ns)[i].state.Some?
    ensures Scan(m, sn, ns)[i + 1] == Step(m, Scan(m, sn, ns)[i], ns[i])
    decreases i
  {
    if i > 0 {
      var next := Step(m, sn, ns[0]);
      assert ns[1..][i - 1] == ns[i];
      ScanIsFold(m, next, ns[1..], i - 1);
    }
  }

  /** Over a materialized input, the record after the first i values holds the
      transition callback folded over those values. */
  lemma {:induction false} ScanStateAt<S, In, Out>(
    m: Machine<S, In, Out>, sn: StateWithNotifications<S, Out>, vs: seq<In>, end: End, i: nat)
    requires sn.state.Some? && i <= |vs|
    ensures Scan(m, sn, Materialize(Source(vs, end)))[i].state
         == Some(FoldState(m.transition, sn.state.value, vs[..i]))
    decreases i
  {
    if i > 0 {
      var t := m.transition;
      var next := Step(m, sn, OnNext(vs[0]));
      var tail := Materialize(Source(vs[1..], end));
      calc {
        Scan(m, sn, Materialize(Source(vs, end)))[i].state;
        { MaterializeCons(vs, end); }
        Scan(m, sn, [OnNext(vs[0])] + tail)[i].state;
        { ScanCons(m, sn, OnNext(vs[0]), tail); }
        ([sn] + Scan(m, next, tail))[i].state;
        Scan(m, next, tail)[i - 1].state;
        { ScanStateAt(m, next, vs[1..], end, i - 1); }
        Some(FoldState(t, t(sn.state.value, vs[0]).0, vs[1..][..i - 1]));
        { assert vs[..i][1..] == vs[1..][..i - 1]; }
        Some(FoldState(t, sn.state.value, vs[..i]));
      }
    }
  }

  /** The base case of ScanMatchesReference: no values, then the end of the input. */
  lemma ScanAtEnd<S, In, Out>(m: Machine<S, In, Out>, sn: StateWithNotifications<S, Out>, end: End)
    requires sn.state.Some?
    ensures var rs := Scan(m, sn, Materialize(Source([], end)));
      && NotificationLists(rs) == [sn.notifications] + EndBatches(m.completion, sn.state.value, end)
      && rs[|rs| - 1].state == EndState(sn.state.value, end)
  {
    var ns: seq<Notification<In>> := Materialize(Source([], end));
    match end
    case Open =>
      assert ns == [];
    case Completed =>
      assert ns == [OnCompleted] + [];
      ScanCons(m, sn, OnCompleted, []);
      NotificationListsCons(sn, [Step(m, sn, OnCompleted)]);
    case Errored(e) =>
      assert ns == [OnError(e)] + [];
      ScanCons(m, sn, OnError(e), []);
      NotificationListsCons(sn, [Step(m, sn, OnError(e))]);
  }

  /** Over a materialized input, the scan records first the seed's batch, then what
      the transition callback recorded for each value, then what the end of the
      input recorded; the last record's state is cleared by a completion and kept
      through an error. */
  lemma {:induction false} ScanMatchesReference<S, In, Out>(
    m: Machine<S, In, Out>, sn: StateWithNotifications<S, Out>, vs: seq<In>, end: End)
    requires sn.state.Some?
    ensures var rs := Scan(m, sn, Materialize(Source(vs, end)));
      var last := FoldState(m.transition, sn.state.value, vs);
      && NotificationLists(rs)
         == [sn.notifications] + TransitionBatches(m.transition, sn.state.value, vs)
            + EndBatches(m.completion, last, end)
      && rs[|rs| - 1].state == EndState(last, end)
    decreases |vs|
  {
    if vs == [] {
      ScanAtEnd(m, sn, end);
      assert TransitionBatches(m.transition, sn.state.value, vs) == [];
    } else {
      var s := sn.state.value;
      var t := m.transition;
      var next := Step(m, sn, OnNext(vs[0]));
      assert next == StateWithNotifications(Some(t(s, vs[0]).0), t(s, vs[0]).1);
      var tail := Materialize(Source(vs[1..], end));
      MaterializeCons(vs, end);
      ScanCons(m, sn, OnNext(vs[0]), tail);
      var rs' := Scan(m, next, tail);
      assert Scan(m, sn, Materialize(Source(vs, end))) == [sn] + rs';
      ScanMatchesReference(m, next, vs[1..], end);
      NotificationListsCons(sn, rs');
      assert TransitionBatches(t, s, vs) == [next.notifications] + TransitionBatches(t, t(s, vs[0]).0, vs[1..]);
      assert FoldState(t, s, vs) == FoldState(t, t(s, vs[0]).0, vs[1..]);
      assert ([sn] + rs')[|rs'|] == rs'[|rs'| - 1];
    }
  }

  // ---------------------------------------------------------------------------
  // The seed and the empty-batch filter

  /** The seed holds the initial state and no notifications, so the filter always
      removes it. */
  lemma SeedContributesNothing<S, In, Out>(m: Machine<S, In, Out>, ns: seq<Notification<In>>)
    requires WellFormed(ns)
    ensures Initial(m).state == Some(m.initialState()) && Initial(m).notifications == []
    ensures var rs := Scan(m, Initial(m), ns);
      Filter(NonEmptyNotifications, rs) == Filter(NonEmptyNotifications, rs[1..])
  {
    var rs := Scan(m, Initial(m), ns);
    assert rs == [rs[0]] + rs[1..];
  }

  /** Dropping the records with empty batches leaves the concatenation of all
      batches unchanged. */
  lemma {:induction false} FilterPreservesConcat<S, Out>(rs: seq<StateWithNotifications<S, Out>>)
    ensures Concat(NotificationLists(Filter(NonEmptyNotifications, rs))) == Concat(NotificationLists(rs))
  {
    if rs != [] {
      FilterPreservesConcat(rs[1..]);
      var kept := Filter(NonEmptyNotifications, rs[1..]);
      assert rs == [rs[0]] + rs[1..];
      NotificationListsCons(rs[0], rs[1..]);
      ConcatCons(rs[0].notifications, NotificationLists(rs[1..]));
      if NonEmptyNotifications(rs[0]) {
        assert Filter(NonEmptyNotifications, rs) == [rs[0]] + kept;
        NotificationListsCons(rs[0], kept);
        ConcatCons(rs[0].notifications, NotificationLists(kept));
      } else {
        assert Filter(NonEmptyNotifications, rs) == kept;
        assert rs[0].notifications == [];
      }
    }
  }

  /** Dropping the records with empty batches leaves what a subscriber receives
      unchanged: an empty inner stream only completes. */
  lemma {:induction false} FilterPreservesFlatten<S, Out>(rs: seq<StateWithNotifications<S, Out>>, outerCompleted: bool)
    ensures Flatten(NotificationLists(Filter(NonEmptyNotifications, rs)), outerCompleted)
         == Flatten(NotificationLists(rs), outerCompleted)
  {
    if rs != [] {
      FilterPreservesFlatten(rs[1..], outerCompleted);
      var kept := Filter(NonEmptyNotifications, rs[1..]);
      assert rs == [rs[0]] + rs[1..];
      NotificationListsCons(rs[0], rs[1..]);
      FlattenCons(rs[0].notifications, NotificationLists(rs[1..]), outerCompleted);
      if NonEmptyNotifications(rs[0]) {
        assert Filter(NonEmptyNotifications, rs) == [rs[0]] + kept;
        NotificationListsCons(rs[0], kept);
        FlattenCons(rs[0].notifications, NotificationLists(kept), outerCompleted);
      } else {
        assert Filter(NonEmptyNotifications, rs) == kept;
        assert Emitted(rs[0].notifications) == [];
      }
    }
  }

  // ---------------------------------------------------------------------------
  // The merged output

  /** Batches whose inner streams end without an error contribute their values, in
      order, and let the following batches through. */
  lemma {:induction false} FlattenAppend<T>(bs: seq<seq<Notification<T>>>, cs: seq<seq<Notification<T>>>, outerCompleted: bool)
    requires NoInnerError(bs)
    ensures Flatten(bs + cs, outerCompleted) == AllEmitted(bs) + Flatten(cs, outerCompleted)
  {
    if bs == [] {
      assert bs + cs == cs;
    } else {
      assert (bs + cs)[0] == bs[0];
      assert (bs + cs)[1..] == bs[1..] + cs;
      assert !InnerEnd(bs[0]).OnError?;
      FlattenAppend(bs[1..], cs, outerCompleted);
    }
  }

  /** The first inner stream that ends with an error ends the output: nothing from
      later batches is received. */
  lemma FlattenStopsAtError<T>(bs: seq<seq<Notification<T>>>, i: nat, outerCompleted: bool)
    requires i < |bs| && NoInnerError(bs[..i]) && InnerEnd(bs[i]).OnError?
    ensures Flatten(bs, outerCompleted) == AllEmitted(bs[..i]) + Emitted(bs[i]) + [InnerEnd(bs[i])]
  {
    assert bs == bs[..i] + bs[i..];
    FlattenAppend(bs[..i], bs[i..], outerCompleted);
    assert bs[i..][0] == bs[i];
  }

  /** Without inner errors, a subscriber receives every batch's values in order,
      then one completion exactly when the outer stream completed. */
  lemma FlattenWithoutErrors<T>(bs: seq<seq<Notification<T>>>, outerCompleted: bool)
    requires NoInnerError(bs)
    ensures Flatten(bs, outerCompleted) == AllEmitted(bs) + (if outerCompleted then [OnCompleted] else [])
  {
    FlattenAppend(bs, [], outerCompleted);
    assert bs + [] == bs;
  }

  /** What is received while the outer stream is still open is a prefix of what is
      received once more batches arrive. */
  lemma {:induction false} FlattenPrefix<T>(bs: seq<seq<Notification<T>>>, cs: seq<seq<Notification<T>>>, outerCompleted: bool)
    ensures Flatten(bs, false) <= Flatten(bs + cs, outerCompleted)
  {
    if bs != [] {
      assert (bs + cs)[0] == bs[0];
      assert (bs + cs)[1..] == bs[1..] + cs;
      if !InnerEnd(bs[0]).OnError? {
        FlattenPrefix(bs[1..], cs, outerCompleted);
        var e := Emitted(bs[0]);
        var a := Flatten(bs[1..], false);
        var b := Flatten(bs[1..] + cs, outerCompleted);
        assert (e + b)[..|e + a|] == e + a;
      }
    }
  }

  /** Two batches that pass on the same values and end their inner streams the same
      way are interchangeable as the last batch. */
  lemma {:induction false} FlattenLastBatchCongruent<T>(
    bs: seq<seq<Notification<T>>>, b1: seq<Notification<T>>, b2: seq<Notification<T>>, outerCompleted: bool)
    requires Emitted(b1) == Emitted(b2) && InnerEnd(b1) == InnerEnd(b2)
    ensures Flatten(bs + [b1], outerCompleted) == Flatten(bs + [b2], outerCompleted)
  {
    if bs == [] {
      assert [] + [b1] == [b1] && [] + [b2] == [b2];
      assert Dematerialize(b1) == Dematerialize(b2);
    } else {
      assert (bs + [b1])[0] == bs[0] && (bs + [b2])[0] == bs[0];
      assert (bs + [b1])[1..] == bs[1..] + [b1];
      assert (bs + [b2])[1..] == bs[1..] + [b2];
      FlattenLastBatchCongruent(bs[1..], b1, b2, outerCompleted);
    }
  }

  /** A completion marker appended after a batch changes neither the values its inner
      stream passes on nor how that inner stream ends. */
  lemma {:induction false} TrailingMarkerInvisible<T>(b: seq<Notification<T>>)
    ensures FirstTerminal(b + [OnCompleted]) == FirstTerminal(b)
    ensures Emitted(b + [OnCompleted]) == Emitted(b) && InnerEnd(b + [OnCompleted]) == InnerEnd(b)
  {
    if b != [] && !b[0].IsTerminal() {
      assert (b + [OnCompleted])[1..] == b[1..] + [OnCompleted];
      TrailingMarkerInvisible(b[1..]);
    }
  }

  // ---------------------------------------------------------------------------
  // The pipeline

  /** The filter can be dropped: the pipeline yields the merge of every record's
      batch, the seed's included. */
  lemma CallWithoutFilter<S, In, Out>(m: Machine<S, In, Out>, source: Source<In>)
    ensures Call(m, source)
         == Flatten(NotificationLists(Scan(m, Initial(m), Materialize(source))), source.end != Open)
  {
    FilterPreservesFlatten(Scan(m, Initial(m), Materialize(source)), source.end != Open);
  }

  /** The batches of the records of the whole pipeline: the seed's empty batch, then
      what the callbacks recorded. */
  lemma PipelineBatches<S, In, Out>(m: Machine<S, In, Out>, source: Source<In>)
    ensures var s0 := m.initialState();
      NotificationLists(Scan(m, Initial(m), Materialize(source)))
      == [[]] + (TransitionBatches(m.transition, s0, source.values)
                 + EndBatches(m.completion, FoldState(m.transition, s0, source.values), source.end))
  {
    assert Source(source.values, source.end) == source;
    ScanMatchesReference(m, Initial(m), source.values, source.end);
  }

  /** What a subscriber receives is the merge of what the transition callback
      recorded for each value and what the end of the input recorded: the seed and
      the filter drop out. */
  lemma CallReference<S, In, Out>(m: Machine<S, In, Out>, source: Source<In>)
    ensures var s0 := m.initialState();
      Call(m, source)
      == Flatten(TransitionBatches(m.transition, s0, source.values)
                 + EndBatches(m.completion, FoldState(m.transition, s0, source.values), source.end),
                 source.end != Open)
  {
    var s0 := m.initialState();
    var rest := TransitionBatches(m.transition, s0, source.values)
                + EndBatches(m.completion, FoldState(m.transition, s0, source.values), source.end);
    var empty: seq<Notification<Out>> := [];
    CallWithoutFilter(m, source);
    PipelineBatches(m, source);
    FlattenCons(empty, rest, source.end != Open);
    assert Emitted(empty) == [] && InnerEnd(empty) == OnCompleted;
  }

  /** The transition batches of a prefix of the values are a prefix of the batches. */
  lemma TransitionBatchesPrefix<S, In, Out>(transition: Transition<S, In, Out>, s: S, vs: seq<In>, k: nat)
    requires k <= |vs|
    ensures TransitionBatches(transition, s, vs[..k]) == TransitionBatches(transition, s, vs)[..k]
    decreases k
  {
    if k > 0 {
      assert vs[..k][1..] == vs[1..][..k - 1];
      TransitionBatchesPrefix(transition, transition(s, vs[0]).0, vs[1..], k - 1);
    }
  }

  /** While the source is open, the subscriber has received exactly the values of
      the batches recorded so far. */
  lemma OpenSourceOutput<S, In, Out>(m: Machine<S, In, Out>, vs: seq<In>)
    ensures Call(m, Source(vs, Open)) == Flatten(TransitionBatches(m.transition, m.initialState(), vs), false)
  {
    var bs := TransitionBatches(m.transition, m.initialState(), vs);
    CallReference(m, Source(vs, Open));
    assert bs + [] == bs;
  }

  /** The output is produced as the input arrives: what is received after a prefix
      of the values, with the source still open, is a prefix of what is received for
      the whole input, however it ends. */
  lemma CallPrefix<S, In, Out>(m: Machine<S, In, Out>, vs: seq<In>, k: nat, end: End)
    requires k <= |vs|
    ensures Call(m, Source(vs[..k], Open)) <= Call(m, Source(vs, end))
  {
    var s0 := m.initialState();
    var bs := TransitionBatches(m.transition, s0, vs);
    var ends := EndBatches(m.completion, FoldState(m.transition, s0, vs), end);
    calc {
      Call(m, Source(vs[..k], Open));
      { OpenSourceOutput(m, vs[..k]); TransitionBatchesPrefix(m.transition, s0, vs, k); }
      Flatten(bs[..k], false);
      <= { FlattenPrefix(bs[..k], bs[k..] + ends, end != Open); }
      Flatten(bs[..k] + (bs[k..] + ends), end != Open);
      { assert bs[..k] + (bs[k..] + ends) == bs + ends; }
      Flatten(bs + ends, end != Open);
      { CallReference(m, Source(vs, end)); }
      Call(m, Source(vs, end));
    }
  }

  /** A completed input: the subscriber receives the values recorded for each input
      value, then those of the completion callback, then exactly one completion,
      provided no recorded batch ends its inner stream with an error. */
  lemma CompletedSourceOutput<S, In, Out>(m: Machine<S, In, Out>, vs: seq<In>)
    requires var s0 := m.initialState();
      NoInnerError(TransitionBatches(m.transition, s0, vs)
                   + EndBatches(m.completion, FoldState(m.transition, s0, vs), Completed))
    ensures var s0 := m.initialState();
      Call(m, Source(vs, Completed))
      == AllEmitted(TransitionBatches(m.transition, s0, vs)
                    + EndBatches(m.completion, FoldState(m.transition, s0, vs), Completed))
         + [OnCompleted]
  {
    CallReference(m, Source(vs, Completed));
    var s0 := m.initialState();
    FlattenWithoutErrors(TransitionBatches(m.transition, s0, vs)
                         + EndBatches(m.completion, FoldState(m.transition, s0, vs), Completed), true);
  }

  /** The completion callback's boolean is not observable by the subscriber: the
      marker it adds ends only its own inner stream, and the output completes
      anyway once the input has. */
  lemma CompletionFlagNotObservable<S, In, Out>(m: Machine<S, In, Out>, source: Source<In>)
    ensures var flipped := m.(completion := (s: S) => (m.completion(s).0, !m.completion(s).1));
      Call(flipped, source) == Call(m, source)
  {
    var flipped := m.(completion := (s: S) => (m.completion(s).0, !m.completion(s).1));
    CallReference(m, source);
    CallReference(flipped, source);
    if source.end.Completed? {
      var s0 := m.initialState();
      var bs := TransitionBatches(m.transition, s0, source.values);
      var last := FoldState(m.transition, s0, source.values);
      var emitted := m.completion(last).0;
      TrailingMarkerInvisible(emitted);
      assert emitted + [] == emitted;
      FlattenLastBatchCongruent(bs, emitted + [OnCompleted], emitted, true);
    }
  }

  /** A failed input: the subscriber receives the values recorded for each input
      value, then the upstream's error, provided no batch recorded an error first. */
  lemma ErroredSourceOutput<S, In, Out>(m: Machine<S, In, Out>, vs: seq<In>, e: Throwable)
    requires NoInnerError(TransitionBatches(m.transition, m.initialState(), vs))
    ensures Call(m, Source(vs, Errored(e)))
         == AllEmitted(TransitionBatches(m.transition, m.initialState(), vs)) + [OnError(e)]
  {
    var bs := TransitionBatches(m.transition, m.initialState(), vs);
    CallReference(m, Source(vs, Errored(e)));
    FlattenAppend(bs, [[OnError(e)]], true);
    var err: seq<Notification<Out>> := [OnError(e)];
    assert InnerEnd(err) == OnError(e);
    assert Emitted(err) == [];
  }

  /** On a failed input the completion callback is never consulted. */
  lemma ErroredSourceIgnoresCompletion<S, In, Out>(m: Machine<S, In, Out>, completion: Completion<S, Out>, vs: seq<In>, e: Throwable)
    ensures Call(m.(completion := completion), Source(vs, Errored(e))) == Call(m, Source(vs, Errored(e)))
  {
    CallReference(m, Source(vs, Errored(e)));
    CallReference(m.(completion := completion), Source(vs, Errored(e)));
  }
}
