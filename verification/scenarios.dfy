/** Concrete state machines run through the transform. */
module Scenarios {
  import opened Rx
  import opened TransformerStateMachine
  import opened TransformerStateMachineProperties

  /** Counts the input values and emits the count at the end. */
  function Counting(): Machine<int, string, int>
  {
    Machine(() => 0, (s: int, v: string) => (s + 1, []), (s: int) => ([OnNext(s)], true))
  }

  lemma CountingRun()
    ensures TransitionBatches(Counting().transition, 0, ["a", "b"]) == [[], []]
    ensures FoldState(Counting().transition, 0, ["a", "b"]) == 2
  {
    var t := Counting().transition;
    var vs := ["a", "b"];
    assert t(0, "a") == (1, []) && t(1, "b") == (2, []);
    assert vs[1..] == ["b"] && vs[1..][1..] == [];
  }

  lemma CountingEnd(n: int)
    ensures EndBatches(Counting().completion, n, Completed) == [[OnNext(n), OnCompleted]]
  {
    var c := Counting().completion;
    var b: seq<Notification<int>> := [OnNext(n), OnCompleted];
    assert c(n) == ([OnNext(n)], true);
    assert EndBatches(c, n, Completed) == [c(n).0 + [OnCompleted]];
    assert c(n).0 + [OnCompleted] == b;
  }

  /** A batch of one value followed by the marker passes the value on and completes. */
  lemma ValueThenMarker(x: int)
    ensures var b: seq<Notification<int>> := [OnNext(x), OnCompleted];
      Flatten([b], true) == b
  {
    var b: seq<Notification<int>> := [OnNext(x), OnCompleted];
    assert b[1..] == [OnCompleted];
    assert FirstTerminal(b) == 1;
    assert Emitted(b) == [OnNext(x)];
    assert [b][1..] == [];
  }

  lemma CountingScenarioEmpty()
    ensures Call(Counting(), Source([], Completed)) == [OnNext(0), OnCompleted]
  {
    var m := Counting();
    assert m.initialState() == 0;
    CountingEnd(0);
    CallReference(m, Source([], Completed));
    ValueThenMarker(0);
  }

  /** The merge of the batches of that run: two empty batches, then the count and
      the marker. */
  lemma CountingFlatten()
    ensures Flatten([[], [], [OnNext(2), OnCompleted]], true) == [OnNext(2), OnCompleted]
  {
    var b2: seq<Notification<int>> := [OnNext(2), OnCompleted];
    var e: seq<Notification<int>> := [];
    assert Emitted(e) == [] && InnerEnd(e) == OnCompleted;
    assert NoInnerError([e, e]);
    FlattenAppend([e, e], [b2], true);
    assert AllEmitted([e, e]) == [];
    ValueThenMarker(2);
    assert [e, e] + [b2] == [e, e, b2];
  }

  lemma CountingScenario()
    ensures Call(Counting(), Source(["a", "b"], Completed)) == [OnNext(2), OnCompleted]
  {
    var m := Counting();
    var e: seq<Notification<int>> := [];
    var b2: seq<Notification<int>> := [OnNext(2), OnCompleted];
    assert m.initialState() == 0;
    CountingEnd(2);
    CountingRun();
    CallReference(m, Source(["a", "b"], Completed));
    assert [e, e] + [b2] == [e, e, b2];
    CountingFlatten();
  }

  /** Passes every value on twice; the completion callback emits nothing and returns
      false, yet the output still completes. */
  function Doubling(): Machine<int, int, int>
  {
    Machine(() => 0, (s: int, v: int) => (s, [OnNext(v), OnNext(v)]), (s: int) => ([], false))
  }

  lemma DoublingRun()
    ensures TransitionBatches(Doubling().transition, 0, [1, 2]) == [[OnNext(1), OnNext(1)], [OnNext(2), OnNext(2)]]
    ensures FoldState(Doubling().transition, 0, [1, 2]) == 0
  {
    var t := Doubling().transition;
    var vs := [1, 2];
    assert t(0, 1) == (0, [OnNext(1), OnNext(1)]) && t(0, 2) == (0, [OnNext(2), OnNext(2)]);
    assert vs[1..] == [2] && vs[1..][1..] == [];
  }

  /** A batch of values only is passed on whole and its inner stream completes. */
  lemma ValuesOnly(b: seq<Notification<int>>)
    requires forall i :: 0 <= i < |b| ==> b[i].OnNext?
    ensures Emitted(b) == b && InnerEnd(b) == OnCompleted
  {
    assert FirstTerminal(b) == |b|;
  }

  lemma DoublingEnd()
    ensures EndBatches(Doubling().completion, 0, Completed) == [[]]
  {
    var c := Doubling().completion;
    var empty: seq<Notification<int>> := [];
    assert c(0) == (empty, false);
    assert EndBatches(c, 0, Completed) == [c(0).0 + []];
    assert c(0).0 + [] == empty;
  }

  /** The merge of the batches of that run: both doubled values, then the completion
      of the outer stream. */
  lemma DoublingFlatten()
    ensures Flatten([[OnNext(1), OnNext(1)], [OnNext(2), OnNext(2)], []], true)
         == [OnNext(1), OnNext(1), OnNext(2), OnNext(2), OnCompleted]
  {
    var b1: seq<Notification<int>> := [OnNext(1), OnNext(1)];
    var b2: seq<Notification<int>> := [OnNext(2), OnNext(2)];
    var empty: seq<Notification<int>> := [];
    ValuesOnly(b1);
    ValuesOnly(b2);
    ValuesOnly(empty);
    var bs := [b1, b2, empty];
    assert NoInnerError(bs);
    FlattenWithoutErrors(bs, true);
    assert AllEmitted(bs[1..][1..][1..]) == [];
    assert AllEmitted(bs[1..][1..]) == [];
    assert AllEmitted(bs[1..]) == b2;
    assert AllEmitted(bs) == b1 + b2;
  }

  lemma DoublingScenario()
    ensures Call(Doubling(), Source([1, 2], Completed))
         == [OnNext(1), OnNext(1), OnNext(2), OnNext(2), OnCompleted]
  {
    var m := Doubling();
    var empty: seq<Notification<int>> := [];
    assert m.initialState() == 0;
    DoublingEnd();
    DoublingRun();
    CallReference(m, Source([1, 2], Completed));
    assert [[OnNext(1), OnNext(1)], [OnNext(2), OnNext(2)]] + [empty]
        == [[OnNext(1), OnNext(1)], [OnNext(2), OnNext(2)], empty];
    DoublingFlatten();
  }

  /** Records a completion instead of passing on the value 0. The completion ends
      only the inner stream of that batch: the values after it still reach the
      transition callback and are received. */
  function StopOnZero(): Machine<int, int, int>
  {
    Machine(() => 0,
            (s: int, v: int) => (s + 1, if v == 0 then [OnCompleted] else [OnNext(v)]),
            (s: int) => ([], false))
  }

  lemma StopOnZeroRun()
    ensures TransitionBatches(StopOnZero().transition, 0, [1, 0, 2])
         == [[OnNext(1)], [OnCompleted], [OnNext(2)]]
    ensures FoldState(StopOnZero().transition, 0, [1, 0, 2]) == 3
  {
    var t := StopOnZero().transition;
    var vs := [1, 0, 2];
    assert t(0, 1) == (1, [OnNext(1)]);
    assert t(1, 0) == (2, [OnCompleted]);
    assert t(2, 2) == (3, [OnNext(2)]);
    assert vs[1..] == [0, 2] && vs[1..][1..] == [2] && vs[1..][1..][1..] == [];
  }

  lemma StopOnZeroEnd()
    ensures EndBatches(StopOnZero().completion, 3, Completed) == [[]]
  {
    var c := StopOnZero().completion;
    var empty: seq<Notification<int>> := [];
    assert c(3) == (empty, false);
    assert EndBatches(c, 3, Completed) == [c(3).0 + []];
    assert c(3).0 + [] == empty;
  }

  /** The merge of the batches of that run: the inner stream of the marker's batch
      completes at once and the next batch follows. */
  lemma StopOnZeroFlatten()
    ensures Flatten([[OnNext(1)], [OnCompleted], [OnNext(2)], []], true)
         == [OnNext(1), OnNext(2), OnCompleted]
  {
    var b1: seq<Notification<int>> := [OnNext(1)];
    var bz: seq<Notification<int>> := [OnCompleted];
    var b2: seq<Notification<int>> := [OnNext(2)];
    var empty: seq<Notification<int>> := [];
    assert FirstTerminal(b1) == 1 && FirstTerminal(bz) == 0 && FirstTerminal(b2) == 1;
    assert FirstTerminal(empty) == 0;
    var all := [b1, bz, b2, empty];
    assert NoInnerError(all);
    FlattenWithoutErrors(all, true);
    assert AllEmitted(all[1..][1..][1..]) == [];
    assert AllEmitted(all[1..][1..]) == b2;
    assert AllEmitted(all[1..]) == b2;
    assert AllEmitted(all) == b1 + b2;
  }

  lemma StopOnZeroScenario()
    ensures Call(StopOnZero(), Source([1, 0, 2], Completed)) == [OnNext(1), OnNext(2), OnCompleted]
  {
    var m := StopOnZero();
    assert m.initialState() == 0;
    StopOnZeroRun();
    StopOnZeroEnd();
    CallReference(m, Source([1, 0, 2], Completed));
    var empty: seq<Notification<int>> := [];
    assert [[OnNext(1)], [OnCompleted], [OnNext(2)]] + [empty] == [[OnNext(1)], [OnCompleted], [OnNext(2)], empty];
    StopOnZeroFlatten();
  }
}
