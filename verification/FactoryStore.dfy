/** pkg/kube_events_manager/factory.go: shared informers, one per index, counted by their registered
    consumers, recreated when they died.

    A `*Factory` is an index into the list of all factories ever created, so that two factories for one
    index stay apart and a consumer can hold on to an old one. */
module FactoryStore {
  import opened Common

  type FactoryIndex = string
  type InformerId = string
  type FactoryRef = nat

  /** `started` says that `done` is not nil, that is, the informer goroutine was started; `exited` that
      `done` is closed; `cancelled` that the factory's context is. */
  datatype Factory = Factory(
    index: FactoryIndex,
    handlerRegistrations: set<InformerId>,
    started: bool,
    exited: bool,
    cancelled: bool)

  /** The informer runs, and nobody has told it to stop. */
  predicate Live(f: Factory) {
    f.started && !f.exited && !f.cancelled
  }

  /** The store, and beside it: for each consumer and index the factory its last successful Start
      registered it with, until it is stopped; and the Stop calls that wait, unlocked, for an informer
      they cancelled. */
  datatype World = World(
    factories: seq<Factory>,
    data: map<FactoryIndex, FactoryRef>,
    owner: map<(InformerId, FactoryIndex), FactoryRef>,
    pending: seq<(FactoryIndex, FactoryRef)>)

  const NEW_STORE := World([], map[], map[], [])

  /** Every reference in the store is to a factory for its index, and only started informers exit. */
  predicate WellFormed(w: World) {
    && (forall i :: i in w.data ==> w.data[i] < |w.factories| && w.factories[w.data[i]].index == i)
    && (forall k :: 0 <= k < |w.factories| && w.factories[k].exited ==> w.factories[k].started)
  }

  // ---------------------------------------------------------------------
  // Critical sections

  /** add: a new factory in the store. */
  function Added(w: World, index: FactoryIndex): (r: World)
    ensures index in r.data && r.data[index] < |r.factories|
  {
    w.(factories := w.factories + [Factory(index, {}, false, false, false)], data := w.data[index := |w.factories|])
  }

  /** Cancel a factory and delete it from the store. */
  function Removed(w: World, index: FactoryIndex): World
    requires WellFormed(w) && index in w.data
  {
    var k := w.data[index];
    w.(factories := w.factories[k := w.factories[k].(cancelled := true)], data := w.data - {index})
  }

  /** The factory that Start works with: the one in the store, or a new one if there is none or its informer is dead. */
  function Gotten(w: World, index: FactoryIndex): (r: World)
    requires WellFormed(w)
    ensures index in r.data && r.data[index] < |r.factories|
  {
    if index !in w.data then Added(w, index)
    else
      var k := w.data[index];
      var f := w.factories[k];
      if f.started && f.exited
      then Added(Removed(w, index), index)
      else w
  }

  /** The locked part of Start; AddEventHandler may fail. */
  function Started(w: World, id: InformerId, index: FactoryIndex, handlerOk: bool): World
    requires WellFormed(w)
  {
    var g := Gotten(w, index);
    if !handlerOk then g else Registered(g, id, index)
  }

  /** The consumer is registered with the factory in the store, which is started if it was not. */
  function Registered(g: World, id: InformerId, index: FactoryIndex): World
    requires index in g.data && g.data[index] < |g.factories|
  {
    var k := g.data[index];
    var f := g.factories[k];
    g.(factories := g.factories[k := f.(handlerRegistrations := f.handlerRegistrations + {id}, started := true)],
       owner := g.owner[(id, index) := k])
  }

  /** The first locked part of Stop: unregister, and cancel after the last one. */
  function StopBegun(w: World, id: InformerId, index: FactoryIndex): World
    requires WellFormed(w)
  {
    var w1 := w.(owner := w.owner - {(id, index)});
    if index !in w.data then w1
    else
      var k := w.data[index];
      var f := w.factories[k];
      if id !in f.handlerRegistrations then w1
      else
        var regs := f.handlerRegistrations - {id};
        var last := regs == {};
        w1.(factories := w.factories[k := f.(handlerRegistrations := regs, cancelled := f.cancelled || last)],
            pending := if last then w.pending + [(index, k)] else w.pending)
  }

  /** A waiting Stop can go on when the informer it cancelled has exited. */
  predicate CanEndStop(w: World, j: nat) {
    && j < |w.pending|
    && w.pending[j].1 < |w.factories|
    && (w.factories[w.pending[j].1].started ==> w.factories[w.pending[j].1].exited)
  }

  /** The second locked part of Stop: whatever is in the store under the index is deleted. */
  function StopEnded(w: World, j: nat): World
    requires j < |w.pending|
  {
    w.(data := w.data - {w.pending[j].0}, pending := w.pending[..j] + w.pending[j + 1..])
  }

  function ResetDone(w: World): World
    requires WellFormed(w)
  {
    w.(factories := seq(|w.factories|, k requires 0 <= k < |w.factories| =>
                        var f := w.factories[k];
                        if f.index in w.data && w.data[f.index] == k then f.(cancelled := true) else f),
       data := map[])
  }

  /** An informer goroutine returns, because it was cancelled or because it died. */
  function Exited(w: World, k: FactoryRef): World
    requires k < |w.factories|
  {
    w.(factories := w.factories[k := w.factories[k].(exited := w.factories[k].started)])
  }

  datatype Step =
    | Start(id: InformerId, index: FactoryIndex, handlerOk: bool)
    | StopBegin(id: InformerId, index: FactoryIndex)
    | StopEnd(j: nat)
    | Reset
    | Exit(k: FactoryRef)

  predicate CanStep(w: World, s: Step) {
    && WellFormed(w)
    && (s.StopEnd? ==> CanEndStop(w, s.j))
    && (s.Exit? ==> s.k < |w.factories|)
  }

  function Next(w: World, s: Step): World
    requires CanStep(w, s)
  {
    match s
    case Start(id, index, handlerOk) => Started(w, id, index, handlerOk)
    case StopBegin(id, index) => StopBegun(w, id, index)
    case StopEnd(j) => StopEnded(w, j)
    case Reset => ResetDone(w)
    case Exit(k) => Exited(w, k)
  }

  // ---------------------------------------------------------------------
  // The invariant

  predicate IsPending(w: World, index: FactoryIndex) {
    exists j :: 0 <= j < |w.pending| && w.pending[j].0 == index
  }

  /** A running informer is the one in the store under its index, and has a consumer. */
  ghost predicate LiveInStore(w: World) {
    forall k :: 0 <= k < |w.factories| && Live(w.factories[k]) ==>
      && w.factories[k].index in w.data && w.data[w.factories[k].index] == k
      && w.factories[k].handlerRegistrations != {}
  }

  /** A factory in the store is not cancelled, and used once it is started, unless a Stop is about to delete it. */
  ghost predicate StoreInUse(w: World)
    requires WellFormed(w)
  {
    forall i :: i in w.data ==>
      var f := w.factories[w.data[i]];
      if IsPending(w, i) then f.cancelled && f.handlerRegistrations == {}
      else !f.cancelled && (f.started <==> f.handlerRegistrations != {})
  }

  /** The consumers registered with the factory in the store are those whose last Start got this very factory. */
  ghost predicate OwnersRegistered(w: World)
    requires WellFormed(w)
  {
    && (forall i, id :: i in w.data ==>
          (id in w.factories[w.data[i]].handlerRegistrations <==> (id, i) in w.owner && w.owner[(id, i)] == w.data[i]))
    && (forall o :: o in w.owner ==> w.owner[o] < |w.factories|)
  }

  ghost predicate Inv(w: World)
  {
    WellFormed(w) && LiveInStore(w) && StoreInUse(w) && OwnersRegistered(w)
  }

  /** At most one informer runs per index. */
  lemma OneInformerPerIndex(w: World, k: FactoryRef, l: FactoryRef)
    requires Inv(w) && k < |w.factories| && l < |w.factories|
    requires Live(w.factories[k]) && Live(w.factories[l]) && w.factories[k].index == w.factories[l].index
    ensures k == l
  {
  }

  /** The hypothesis: no Start for an index falls into the window of a Stop for it. */
  predicate OutsideWindows(w: World, s: Step) {
    s.Start? ==> !IsPending(w, s.index)
  }

  lemma AddedKeepsInv(w: World, index: FactoryIndex)
    requires Inv(w) && index !in w.data && !IsPending(w, index)
    ensures Inv(Added(w, index))
  {
    var g := Added(w, index);
    assert forall i :: IsPending(g, i) <==> IsPending(w, i);
    assert forall i :: i in w.data ==> g.factories[g.data[i]] == w.factories[w.data[i]];
  }

  lemma RemovedKeepsInv(w: World, index: FactoryIndex)
    requires Inv(w) && index in w.data
    ensures Inv(Removed(w, index))
  {
    var g := Removed(w, index);
    assert forall i :: IsPending(g, i) <==> IsPending(w, i);
    assert forall i :: i in g.data ==> g.factories[g.data[i]] == w.factories[w.data[i]];
  }

  lemma GottenKeepsInv(w: World, index: FactoryIndex)
    requires Inv(w) && !IsPending(w, index)
    ensures
      var g := Gotten(w, index);
      && Inv(g) && g.pending == w.pending && g.owner == w.owner
      && !(g.factories[g.data[index]].started && g.factories[g.data[index]].exited)
  {
    if index !in w.data {
      AddedKeepsInv(w, index);
    } else {
      var f := w.factories[w.data[index]];
      if f.started && f.exited {
        RemovedKeepsInv(w, index);
        AddedKeepsInv(Removed(w, index), index);
      }
    }
  }

  lemma StartKeepsInv(w: World, id: InformerId, index: FactoryIndex, handlerOk: bool)
    requires Inv(w) && !IsPending(w, index)
    ensures Inv(Started(w, id, index, handlerOk))
  {
    GottenKeepsInv(w, index);
    if handlerOk {
      RegisteredKeepsInv(Gotten(w, index), id, index);
    }
  }

  lemma RegisteredKeepsInv(g: World, id: InformerId, index: FactoryIndex)
    requires Inv(g) && index in g.data && !IsPending(g, index)
    requires !g.factories[g.data[index]].exited
    ensures Inv(Registered(g, id, index))
  {
    var w1 := Registered(g, id, index);
    assert forall i :: IsPending(w1, i) <==> IsPending(g, i);
  }

  lemma StopBeginKeepsInv(w: World, id: InformerId, index: FactoryIndex)
    requires Inv(w)
    ensures Inv(StopBegun(w, id, index))
  {
    var w1 := StopBegun(w, id, index);
    if w1.pending == w.pending {
      assert forall i :: IsPending(w1, i) <==> IsPending(w, i);
    } else {
      forall i
        ensures IsPending(w1, i) <==> i == index || IsPending(w, i)
      {
        assert w1.pending[|w.pending|].0 == index;
        if IsPending(w, i) {
          var j :| 0 <= j < |w.pending| && w.pending[j].0 == i;
          assert w1.pending[j].0 == i;
        }
      }
    }
  }

  lemma StopEndKeepsInv(w: World, j: nat)
    requires Inv(w) && j < |w.pending| && IsPending(w, w.pending[j].0)
    ensures Inv(StopEnded(w, j))
  {
    var w1 := StopEnded(w, j);
    forall i | i != w.pending[j].0
      ensures IsPending(w1, i) <==> IsPending(w, i)
    {
      if IsPending(w, i) {
        var l :| 0 <= l < |w.pending| && w.pending[l].0 == i;
        assert w1.pending[if l < j then l else l - 1].0 == i;
      }
      if IsPending(w1, i) {
        var l :| 0 <= l < |w1.pending| && w1.pending[l].0 == i;
        assert w.pending[if l < j then l else l + 1].0 == i;
      }
    }
  }

  lemma ResetKeepsInv(w: World)
    requires Inv(w)
    ensures Inv(ResetDone(w))
  {
  }

  lemma ExitKeepsInv(w: World, k: FactoryRef)
    requires Inv(w) && k < |w.factories|
    ensures Inv(Exited(w, k))
  {
    var w1 := Exited(w, k);
    assert forall i :: IsPending(w1, i) <==> IsPending(w, i);
  }

  predicate CanRun(w: World, run: seq<Step>)
    decreases |run|
  {
    run == [] || (CanStep(w, run[0]) && OutsideWindows(w, run[0]) && CanRun(Next(w, run[0]), run[1..]))
  }

  function After(w: World, run: seq<Step>): World
    requires CanRun(w, run)
    decreases |run|
  {
    if run == [] then w else After(Next(w, run[0]), run[1..])
  }

  lemma StepKeepsInv(w: World, s: Step)
    requires Inv(w) && CanStep(w, s) && OutsideWindows(w, s)
    ensures Inv(Next(w, s))
  {
    match s
    case Start(id, index, handlerOk) => StartKeepsInv(w, id, index, handlerOk);
    case StopBegin(id, index) => StopBeginKeepsInv(w, id, index);
    case StopEnd(j) =>
      assert IsPending(w, w.pending[j].0);
      StopEndKeepsInv(w, j);
    case Reset => ResetKeepsInv(w);
    case Exit(k) => ExitKeepsInv(w, k);
  }

  /** The invariant over every run of critical sections in which no Start falls into the window of a
      Stop for the same index. Informers may die at any time. */
  lemma {:induction false} RunKeepsInv(w: World, run: seq<Step>)
    requires Inv(w) && CanRun(w, run)
    ensures Inv(After(w, run))
    decreases |run|
  {
    if run != [] {
      StepKeepsInv(w, run[0]);
      RunKeepsInv(Next(w, run[0]), run[1..]);
    }
  }

  // ---------------------------------------------------------------------
  // Informers that were told to stop and have not returned

  /** The informer's goroutine has not returned, whether somebody has told it to stop or not. */
  predicate Executing(w: World, i: FactoryIndex, k: FactoryRef) {
    k < |w.factories| && w.factories[k].index == i && w.factories[k].started && !w.factories[k].exited
  }

  /** It executes, and the store does not know it any more. */
  predicate Lingering(w: World, i: FactoryIndex, k: FactoryRef) {
    Executing(w, i, k) && !(i in w.data && w.data[i] == k)
  }

  ghost predicate SomeLingers(w: World, i: FactoryIndex) {
    exists k :: Lingering(w, i, k)
  }

  ghost predicate AtMostOneExecutes(w: World, i: FactoryIndex) {
    forall k, l :: Executing(w, i, k) && Executing(w, i, l) ==> k == l
  }

  predicate CanRunAny(w: World, run: seq<Step>)
    decreases |run|
  {
    run == [] || (CanStep(w, run[0]) && CanRunAny(Next(w, run[0]), run[1..]))
  }

  /** In every state of the run. */
  ghost predicate AlwaysAtMostOneExecutes(w: World, run: seq<Step>, i: FactoryIndex)
    requires CanRunAny(w, run)
    decreases |run|
  {
    AtMostOneExecutes(w, i) && (run == [] || AlwaysAtMostOneExecutes(Next(w, run[0]), run[1..], i))
  }

  /** A Start for the index that gets its handler registered while an informer lingers. */
  ghost predicate StartsOverLingering(w: World, s: Step, i: FactoryIndex) {
    s.Start? && s.index == i && s.handlerOk && SomeLingers(w, i)
  }

  ghost predicate NeverStartsOverLingering(w: World, run: seq<Step>, i: FactoryIndex)
    requires CanRunAny(w, run)
    decreases |run|
  {
    run == [] || (!StartsOverLingering(w, run[0], i) && NeverStartsOverLingering(Next(w, run[0]), run[1..], i))
  }

  lemma StartOverLingeringDoubles(w: World, s: Step, i: FactoryIndex)
    requires CanStep(w, s) && StartsOverLingering(w, s, i)
    ensures !AtMostOneExecutes(Next(w, s), i)
  {
    var k: FactoryRef :| Lingering(w, i, k);
    var g, w1 := Gotten(w, i), Next(w, s);
    assert g.data[i] != k && g.factories[k] == w.factories[k] && w1.data == g.data;
    assert Executing(w1, i, k) && Executing(w1, i, w1.data[i]);
  }

  lemma StepKeepsOneExecuting(w: World, s: Step, i: FactoryIndex)
    requires CanStep(w, s) && AtMostOneExecutes(w, i) && !StartsOverLingering(w, s, i)
    ensures AtMostOneExecutes(Next(w, s), i)
  {
    var w1 := Next(w, s);
    forall k | Executing(w1, i, k)
      ensures Executing(w, i, k) || (s.Start? && s.index == i && s.handlerOk && k == w1.data[i])
    {
      ExecutingBefore(w, s, i, k);
    }
    forall k | s.Start? && s.index == i && s.handlerOk && Executing(w, i, k)
      ensures k == w1.data[i]
    {
      assert !Lingering(w, i, k);
    }
  }

  /** Only a successful Start makes an informer execute, the one in the store. */
  lemma ExecutingBefore(w: World, s: Step, i: FactoryIndex, k: FactoryRef)
    requires CanStep(w, s) && Executing(Next(w, s), i, k)
    ensures Executing(w, i, k) || (s.Start? && s.index == i && s.handlerOk && k == Next(w, s).data[i])
  {
  }

  /** Over every run, Starts in the window of a Stop included: at most one informer executes per index at any time, if
      and only if no Start happens while an informer for the index executes that the store does not know. */
  lemma {:induction false} OneExecutesIff(w: World, run: seq<Step>, i: FactoryIndex)
    requires WellFormed(w) && CanRunAny(w, run) && AtMostOneExecutes(w, i)
    ensures AlwaysAtMostOneExecutes(w, run, i) <==> NeverStartsOverLingering(w, run, i)
    decreases |run|
  {
    if run != [] {
      if StartsOverLingering(w, run[0], i) {
        StartOverLingeringDoubles(w, run[0], i);
        assert !AlwaysAtMostOneExecutes(Next(w, run[0]), run[1..], i);
      } else {
        StepKeepsOneExecuting(w, run[0], i);
        StepKeepsWellFormed(w, run[0]);
        OneExecutesIff(Next(w, run[0]), run[1..], i);
      }
    }
  }

  lemma StepKeepsWellFormed(w: World, s: Step)
    requires CanStep(w, s)
    ensures WellFormed(Next(w, s))
  {
    match s
    case Start(id, index, handlerOk) => StartKeepsWellFormed(w, id, index, handlerOk);
    case StopBegin(id, index) => StopBeginKeepsWellFormed(w, id, index);
    case StopEnd(_) =>
    case Reset =>
    case Exit(_) =>
  }

  lemma StartKeepsWellFormed(w: World, id: InformerId, index: FactoryIndex, handlerOk: bool)
    requires WellFormed(w)
    ensures WellFormed(Started(w, id, index, handlerOk))
  {
    assert WellFormed(Gotten(w, index));
  }

  lemma StopBeginKeepsWellFormed(w: World, id: InformerId, index: FactoryIndex)
    requires WellFormed(w)
    ensures WellFormed(StopBegun(w, id, index))
  {
  }

  /** The Stop calls that wait hold the factory that the store holds, if it holds one. */
  ghost predicate PendingStored(w: World) {
    forall j :: 0 <= j < |w.pending| && w.pending[j].0 in w.data ==> w.data[w.pending[j].0] == w.pending[j].1
  }

  lemma StepKeepsPendingStored(w: World, s: Step)
    requires PendingStored(w) && CanStep(w, s) && OutsideWindows(w, s)
    ensures PendingStored(Next(w, s))
  {
    var w1 := Next(w, s);
    forall j | 0 <= j < |w1.pending| && w1.pending[j].0 in w1.data
      ensures w1.data[w1.pending[j].0] == w1.pending[j].1
    {
      if s.Start? {
        assert IsPending(w, w.pending[j].0);
      }
    }
  }

  /** Outside of the windows of Stop, only Reset makes an informer linger, and it has cancelled it. */
  lemma OnlyResetLeavesLingering(w: World, s: Step, i: FactoryIndex, k: FactoryRef)
    requires PendingStored(w) && CanStep(w, s) && OutsideWindows(w, s)
    requires !Lingering(w, i, k) && Lingering(Next(w, s), i, k)
    ensures s.Reset? && Next(w, s).factories[k].cancelled
  {
    ExecutingBefore(w, s, i, k);
  }

  /** The informers a Reset has cancelled and forgotten. */
  function ForgottenBy(w: World, s: Step): set<FactoryRef>
    requires CanStep(w, s)
  {
    if s.Reset? then set i | i in w.data :: w.data[i] else {}
  }

  /** The informers that linger are the forgotten ones that still execute. */
  ghost predicate LingeringAreForgotten(w: World, forgotten: set<FactoryRef>) {
    && (forall i, k :: Lingering(w, i, k) ==> k in forgotten)
    && (forall k :: k in forgotten ==>
          k < |w.factories| && !(w.factories[k].index in w.data && w.data[w.factories[k].index] == k))
  }

  lemma StepKeepsForgotten(w: World, s: Step, forgotten: set<FactoryRef>)
    requires PendingStored(w) && CanStep(w, s) && OutsideWindows(w, s) && LingeringAreForgotten(w, forgotten)
    ensures LingeringAreForgotten(Next(w, s), forgotten + ForgottenBy(w, s))
  {
    var w1 := Next(w, s);
    forall i, k | Lingering(w1, i, k)
      ensures k in forgotten + ForgottenBy(w, s)
    {
      ExecutingBefore(w, s, i, k);
      if !Lingering(w, i, k) {
        OnlyResetLeavesLingering(w, s, i, k);
      }
    }
  }

  /** A Start for the index that gets its handler registered while an informer that a Reset cancelled has not exited. */
  predicate StartsOverForgotten(w: World, s: Step, i: FactoryIndex, forgotten: set<FactoryRef>) {
    s.Start? && s.index == i && s.handlerOk && exists k :: k in forgotten && Executing(w, i, k)
  }

  predicate NeverStartsOverForgotten(w: World, run: seq<Step>, i: FactoryIndex, forgotten: set<FactoryRef>)
    requires CanRun(w, run)
    decreases |run|
  {
    run == [] ||
    ( && !StartsOverForgotten(w, run[0], i, forgotten)
      && NeverStartsOverForgotten(Next(w, run[0]), run[1..], i, forgotten + ForgottenBy(w, run[0])))
  }

  lemma {:induction false} LingeringIsForgotten(w: World, run: seq<Step>, i: FactoryIndex, forgotten: set<FactoryRef>)
    requires PendingStored(w) && LingeringAreForgotten(w, forgotten) && CanRun(w, run)
    ensures CanRunAny(w, run)
    ensures NeverStartsOverForgotten(w, run, i, forgotten) <==> NeverStartsOverLingering(w, run, i)
    decreases |run|
  {
    if run != [] {
      assert forall k :: k in forgotten && Executing(w, i, k) <==> Lingering(w, i, k);
      StepKeepsPendingStored(w, run[0]);
      StepKeepsForgotten(w, run[0], forgotten);
      LingeringIsForgotten(Next(w, run[0]), run[1..], i, forgotten + ForgottenBy(w, run[0]));
    }
  }

  /** Over every run from the empty store without a Start in the window of a Stop: at most one informer executes per
      index at any time, if and only if no Start for the index happens before the informer for it that a Reset
      cancelled has exited. */
  lemma OneExecutesUnlessResetIff(run: seq<Step>, i: FactoryIndex)
    requires CanRun(NEW_STORE, run)
    ensures
      CanRunAny(NEW_STORE, run)
      && (AlwaysAtMostOneExecutes(NEW_STORE, run, i) <==> NeverStartsOverForgotten(NEW_STORE, run, i, {}))
  {
    LingeringIsForgotten(NEW_STORE, run, i, {});
    OneExecutesIff(NEW_STORE, run, i);
  }

  /** Reset does not wait: a Start behind it finds the old informer still executing. */
  lemma StartAfterResetDoubles(a: InformerId, b: InformerId, i: FactoryIndex)
    ensures
      var run := [Start(a, i, true), Reset, Start(b, i, true)];
      && CanRun(NEW_STORE, run)
      && var w := After(NEW_STORE, run);
      && Executing(w, i, 0) && Executing(w, i, 1) && Inv(w)
  {
    var run := [Start(a, i, true), Reset, Start(b, i, true)];
    assert run[1..] == [Reset, Start(b, i, true)] && run[1..][1..] == [Start(b, i, true)] && run[1..][1..][1..] == [];
    var w1 := Next(NEW_STORE, run[0]);
    StepKeepsWellFormed(NEW_STORE, run[0]);
    var w2 := Next(w1, run[1]);
    StepKeepsWellFormed(w1, run[1]);
    AfterStep(w2, run[2..]);
    AfterStep(w1, run[1..]);
    AfterStep(NEW_STORE, run);
    RunKeepsInv(NEW_STORE, run);
  }

  lemma AfterStep(w: World, run: seq<Step>)
    requires run != [] && CanStep(w, run[0]) && OutsideWindows(w, run[0]) && CanRun(Next(w, run[0]), run[1..])
    ensures CanRun(w, run) && After(w, run) == After(Next(w, run[0]), run[1..])
  {
  }

  // ---------------------------------------------------------------------
  // What the invariant means for consumers

  /** A consumer holds the factory that the store holds. */
  predicate Holds(w: World, id: InformerId, index: FactoryIndex) {
    index in w.data && (id, index) in w.owner && w.owner[(id, index)] == w.data[index]
  }

  /** Stop of a consumer that never started, was stopped, or whose dead factory was replaced, changes
      nothing: it can never cancel the informer of others. */
  lemma StrangersCannotStop(w: World, id: InformerId, index: FactoryIndex)
    requires Inv(w) && !Holds(w, id, index)
    ensures StopBegun(w, id, index) == w.(owner := w.owner - {(id, index)})
  {
  }

  /** Stop of a consumer that holds the factory cancels it if and only if no other consumer holds it,
      and keeps every other factory and registration. */
  lemma LastStopCancels(w: World, id: InformerId, index: FactoryIndex)
    requires Inv(w) && Holds(w, id, index)
    ensures
      var k, w1 := w.data[index], StopBegun(w, id, index);
      && (w1.factories[k].cancelled <==> forall other :: Holds(w, other, index) ==> other == id)
      && (w1.pending == w.pending + [(index, k)] <==> w1.factories[k].cancelled)
      && w1.factories[k].handlerRegistrations == w.factories[k].handlerRegistrations - {id}
      && (forall l :: 0 <= l < |w.factories| && l != k ==> w1.factories[l] == w.factories[l])
  {
    var k, w1 := w.data[index], StopBegun(w, id, index);
    var regs := w.factories[k].handlerRegistrations;
    assert forall other :: Holds(w, other, index) <==> other in regs;
    if forall other :: Holds(w, other, index) ==> other == id {
      assert regs - {id} == {};
    } else {
      var other :| Holds(w, other, index) && other != id;
      assert other in regs - {id};
    }
  }

  /** After a successful Start the consumer holds a running informer; a dead one was replaced by a new one. */
  lemma StartGivesLiveInformer(w: World, id: InformerId, index: FactoryIndex)
    requires Inv(w) && !IsPending(w, index)
    ensures
      var w1 := Started(w, id, index, true);
      && Holds(w1, id, index) && Live(w1.factories[w1.data[index]])
      && (index in w.data && Live(w.factories[w.data[index]]) ==> w1.data == w.data)
      && (index in w.data && w.factories[w.data[index]].started && w.factories[w.data[index]].exited ==> w1.data[index] == |w.factories|)
  {
    GottenKeepsInv(w, index);
  }

  // ---------------------------------------------------------------------
  // The consumers of an informer, judged by the run alone

  /** The store holds a factory whose informer has died. */
  predicate Dead(w: World, i: FactoryIndex)
    requires WellFormed(w)
  {
    i in w.data && w.factories[w.data[i]].started && w.factories[w.data[i]].exited
  }

  /** The consumers for an index: those that started successfully, and were not stopped, reset, or left behind with
      a dead informer that a Start replaced. */
  function UsersNext(w: World, s: Step, i: FactoryIndex, users: set<InformerId>): set<InformerId>
    requires WellFormed(w)
  {
    match s
    case Start(id, index, handlerOk) =>
      if index != i then users
      else (if Dead(w, i) then {} else users) + (if handlerOk then {id} else {})
    case StopBegin(id, index) => if index == i then users - {id} else users
    case StopEnd(_) => users
    case Reset => {}
    case Exit(_) => users
  }

  function Users(w: World, run: seq<Step>, i: FactoryIndex, users: set<InformerId>): set<InformerId>
    requires CanRun(w, run)
    decreases |run|
  {
    if run == [] then users else Users(Next(w, run[0]), run[1..], i, UsersNext(w, run[0], i, users))
  }

  /** These are the consumers registered for the index, and their informer has been started and not cancelled. */
  ghost predicate Serves(w: World, i: FactoryIndex, users: set<InformerId>) {
    && (if i in w.data then w.data[i] < |w.factories| && users == w.factories[w.data[i]].handlerRegistrations else users == {})
    && (forall id :: id in users <==> Holds(w, id, i))
    && (users != {} ==> w.factories[w.data[i]].started && !w.factories[w.data[i]].cancelled)
  }

  lemma StepServes(w: World, s: Step, i: FactoryIndex, users: set<InformerId>)
    requires Inv(w) && CanStep(w, s) && OutsideWindows(w, s) && Serves(w, i, users)
    ensures Inv(Next(w, s)) && Serves(Next(w, s), i, UsersNext(w, s, i, users))
  {
    StepKeepsInv(w, s);
    match s
    case Start(id, index, handlerOk) => StartServes(w, id, index, handlerOk, i, users);
    case StopBegin(id, index) => StopBeginServes(w, id, index, i, users);
    case StopEnd(j) => assert IsPending(w, w.pending[j].0);
    case Reset =>
    case Exit(k) => assert IsPending(Exited(w, k), i) <==> IsPending(w, i);
  }

  lemma StartServes(w: World, id: InformerId, index: FactoryIndex, handlerOk: bool, i: FactoryIndex, users: set<InformerId>)
    requires Inv(w) && !IsPending(w, index) && Serves(w, i, users)
    ensures Serves(Started(w, id, index, handlerOk), i, UsersNext(w, Start(id, index, handlerOk), i, users))
  {
    GottenKeepsInv(w, index);
    GottenServes(w, index, i, users);
    if handlerOk {
      RegisteredServes(Gotten(w, index), id, index, i, if i == index && Dead(w, i) then {} else users);
    }
  }

  lemma GottenServes(w: World, index: FactoryIndex, i: FactoryIndex, users: set<InformerId>)
    requires Inv(w) && !IsPending(w, index) && Serves(w, i, users)
    ensures Serves(Gotten(w, index), i, if i == index && Dead(w, i) then {} else users)
  {
    GottenKeepsInv(w, index);
    var g := Gotten(w, index);
    assert i != index && i in w.data ==> g.factories[g.data[i]] == w.factories[w.data[i]];
  }

  lemma RegisteredServes(g: World, id: InformerId, index: FactoryIndex, i: FactoryIndex, users: set<InformerId>)
    requires Inv(g) && index in g.data && !IsPending(g, index) && Serves(g, i, users)
    ensures Serves(Registered(g, id, index), i, if i == index then users + {id} else users)
  {
    var w1 := Registered(g, id, index);
    assert i != index && i in g.data ==> w1.factories[w1.data[i]] == g.factories[g.data[i]];
  }

  lemma StopBeginServes(w: World, id: InformerId, index: FactoryIndex, i: FactoryIndex, users: set<InformerId>)
    requires Inv(w) && Serves(w, i, users)
    ensures Serves(StopBegun(w, id, index), i, UsersNext(w, StopBegin(id, index), i, users))
  {
    StopBeginKeepsInv(w, id, index);
    if i == index && id !in users {
      assert users - {id} == users;
    }
  }

  /** Over every run the registered consumers are exactly those that the run says: nobody is thrown off the
      shared informer by the Start or the Stop of another. */
  lemma {:induction false} RunServesUsers(w: World, run: seq<Step>, i: FactoryIndex, users: set<InformerId>)
    requires Inv(w) && CanRun(w, run) && Serves(w, i, users)
    ensures Serves(After(w, run), i, Users(w, run, i, users))
    decreases |run|
  {
    if run != [] {
      StepServes(w, run[0], i, users);
      RunServesUsers(Next(w, run[0]), run[1..], i, UsersNext(w, run[0], i, users));
    }
  }

  /** What is told to stop by a step: what Reset finds in the store, a dead one that is replaced, or the one whose
      only consumer stops. */
  predicate Cancels(w: World, s: Step, k: FactoryRef, users: set<InformerId>)
    requires WellFormed(w) && k < |w.factories|
  {
    var i := w.factories[k].index;
    && i in w.data && w.data[i] == k
    && match s
       case Start(_, index, _) => index == i && Dead(w, i)
       case StopBegin(id, index) => index == i && users == {id}
       case StopEnd(_) => false
       case Reset => true
       case Exit(_) => false
  }

  lemma StepCancelsIff(w: World, s: Step, k: FactoryRef, users: set<InformerId>)
    requires Inv(w) && CanStep(w, s) && OutsideWindows(w, s)
    requires k < |w.factories| && !w.factories[k].cancelled && Serves(w, w.factories[k].index, users)
    ensures k < |Next(w, s).factories| && (Next(w, s).factories[k].cancelled <==> Cancels(w, s, k, users))
  {
    match s
    case Start(_, _, _) =>
    case StopBegin(id, index) =>
      assert users - {id} == {} && id in users <==> users == {id};
    case StopEnd(_) =>
    case Reset =>
    case Exit(_) =>
  }

  /** After every run from the empty store, a step cancels an informer if and only if it is a Reset, replaces the
      dead one, or stops the only consumer that the run left. */
  lemma CancelledExactly(run: seq<Step>, s: Step, k: FactoryRef)
    requires CanRun(NEW_STORE, run) && CanStep(After(NEW_STORE, run), s) && OutsideWindows(After(NEW_STORE, run), s)
    requires k < |After(NEW_STORE, run).factories| && !After(NEW_STORE, run).factories[k].cancelled
    ensures
      var w := After(NEW_STORE, run);
      k < |Next(w, s).factories|
      && (Next(w, s).factories[k].cancelled <==> Cancels(w, s, k, Users(NEW_STORE, run, w.factories[k].index, {})))
  {
    var w := After(NEW_STORE, run);
    var i := w.factories[k].index;
    RunKeepsInv(NEW_STORE, run);
    RunServesUsers(NEW_STORE, run, i, {});
    StepCancelsIff(w, s, k, Users(NEW_STORE, run, i, {}));
  }

  /** The consumer holds the same factory, which is as it was but for further consumers and its start. */
  predicate StillHolds(w: World, w1: World, other: InformerId, i: FactoryIndex)
    requires i in w.data && w.data[i] < |w.factories|
  {
    var k := w.data[i];
    && Holds(w1, other, i) && w1.data[i] == k < |w1.factories|
    && w.factories[k].handlerRegistrations <= w1.factories[k].handlerRegistrations
    && w1.factories[k].exited == w.factories[k].exited && w1.factories[k].cancelled == w.factories[k].cancelled
    && (w.factories[k].started ==> w1.factories[k].started)
  }

  lemma GottenLeavesOthers(w: World, index: FactoryIndex, other: InformerId, i: FactoryIndex)
    requires WellFormed(w) && Holds(w, other, i) && !(i == index && Dead(w, i))
    ensures StillHolds(w, Gotten(w, index), other, i)
  {
  }

  lemma RegisteredLeavesOthers(g: World, id: InformerId, index: FactoryIndex, other: InformerId, i: FactoryIndex)
    requires index in g.data && g.data[index] < |g.factories|
    requires Holds(g, other, i) && g.data[i] < |g.factories| && (other, i) != (id, index)
    ensures StillHolds(g, Registered(g, id, index), other, i)
  {
  }

  /** A Start leaves all other consumers where they are, unless the informer they share is dead. */
  lemma StartLeavesOthers(w: World, id: InformerId, index: FactoryIndex, handlerOk: bool, other: InformerId, i: FactoryIndex)
    requires WellFormed(w) && (other, i) != (id, index)
    ensures
      var w1 := Started(w, id, index, handlerOk);
      && ((other, i) in w1.owner <==> (other, i) in w.owner) && ((other, i) in w.owner ==> w1.owner[(other, i)] == w.owner[(other, i)])
      && (Holds(w, other, i) && !(i == index && Dead(w, i)) ==> StillHolds(w, w1, other, i))
  {
    var g := Gotten(w, index);
    assert g.owner == w.owner;
    if Holds(w, other, i) && !(i == index && Dead(w, i)) {
      GottenLeavesOthers(w, index, other, i);
      if handlerOk {
        RegisteredLeavesOthers(g, id, index, other, i);
      }
    }
  }

  // ---------------------------------------------------------------------
  // The window of Stop

  /** The second half of Stop deletes whatever the store holds. It keeps running informers in the store
      if and only if the factory it deletes is not running. */
  lemma StopEndSafeIff(w: World, j: nat)
    requires WellFormed(w) && LiveInStore(w) && j < |w.pending|
    ensures
      var i := w.pending[j].0;
      LiveInStore(StopEnded(w, j)) <==> !(i in w.data && Live(w.factories[w.data[i]]))
  {
    var i, w1 := w.pending[j].0, StopEnded(w, j);
    if i in w.data && Live(w.factories[w.data[i]]) {
      var k := w.data[i];
      assert Live(w1.factories[k]) && w1.factories[k].index !in w1.data;
    }
  }

  /** A Stop waits for the informer it cancelled, which has exited. */
  predicate InWindow(w: World, j: nat) {
    && j < |w.pending| && CanEndStop(w, j)
    && w.pending[j].0 in w.data && w.data[w.pending[j].0] == w.pending[j].1
    && w.factories[w.pending[j].1].started
  }

  /** A Start falls into the window, then Stop goes on. */
  function WindowClosed(w: World, j: nat, id: InformerId): (r: World)
    requires Inv(w) && InWindow(w, j)
    ensures WellFormed(r)
  {
    StopEnded(Started(w, id, w.pending[j].0, true), j)
  }

  /** The hypothesis is needed: the informer of a Start in the window is deleted from the store while it runs. */
  lemma StartInWindowLeaksInformer(w: World, j: nat, id: InformerId)
    requires Inv(w) && InWindow(w, j)
    ensures
      var w1, i, k := WindowClosed(w, j, id), w.pending[j].0, |w.factories|;
      && |w1.factories| == k + 1 && Live(w1.factories[k]) && w1.factories[k].index == i && i !in w1.data
      && !Inv(w1)
  {
    var w1, k := WindowClosed(w, j, id), |w.factories|;
    assert Live(w1.factories[k]);
  }

  /** The next Start then makes a second running informer for the same index. */
  lemma StartAfterWindowDoubles(w: World, j: nat, id: InformerId, other: InformerId)
    requires Inv(w) && InWindow(w, j)
    ensures
      var i, k := w.pending[j].0, |w.factories|;
      var w2 := Started(WindowClosed(w, j, id), other, i, true);
      && |w2.factories| == k + 2 && Live(w2.factories[k]) && Live(w2.factories[k + 1])
      && w2.factories[k].index == i && w2.factories[k + 1].index == i
  {
    StartInWindowLeaksInformer(w, j, id);
  }

  // ---------------------------------------------------------------------
  // The store itself

  /** Stop without interruption: the informer of a factory that is cancelled exits before it is deleted. */
  function Stopped(w: World, id: InformerId, index: FactoryIndex): World
    requires WellFormed(w)
  {
    var w1 := StopBegun(w, id, index);
    if w1.pending == w.pending then w1
    else StopEnded(Exited(w1, w.data[index]), |w.pending|)
  }

  lemma StoppedKeepsInv(w: World, id: InformerId, index: FactoryIndex)
    requires Inv(w) && w.pending == []
    ensures Inv(Stopped(w, id, index)) && Stopped(w, id, index).pending == []
  {
    var w1 := StopBegun(w, id, index);
    StopBeginKeepsInv(w, id, index);
    if w1.pending != w.pending {
      var k := w.data[index];
      ExitKeepsInv(w1, k);
      var w2 := Exited(w1, k);
      assert w2.pending[0].0 == index;
      assert IsPending(w2, index);
      StopEndKeepsInv(w2, 0);
    }
  }

  /** The same as one update. */
  function StoppedAtOnce(w: World, id: InformerId, index: FactoryIndex): World
    requires WellFormed(w)
  {
    var w1 := w.(owner := w.owner - {(id, index)});
    if index !in w.data || id !in w.factories[w.data[index]].handlerRegistrations then w1
    else
      var k := w.data[index];
      var f := w.factories[k];
      var regs := f.handlerRegistrations - {id};
      if regs != {} then w1.(factories := w.factories[k := f.(handlerRegistrations := regs)])
      else w1.(factories := w.factories[k := f.(handlerRegistrations := {}, cancelled := true, exited := f.started)],
               data := w.data - {index})
  }

  lemma StoppedIsAtOnce(w: World, id: InformerId, index: FactoryIndex)
    requires Inv(w) && w.pending == []
    ensures Stopped(w, id, index) == StoppedAtOnce(w, id, index)
  {
  }

  class FactoryStore {
    /** Every factory ever created. */
    var factories: seq<Factory>
    var data: map<FactoryIndex, FactoryRef>
    ghost var owner: map<(InformerId, FactoryIndex), FactoryRef>

    ghost function State(): World
      reads this
    {
      World(factories, data, owner, [])
    }

    ghost predicate Valid()
      reads this
    {
      Inv(State())
    }

    constructor ()
      ensures Valid() && State() == NEW_STORE
    {
      factories, data, owner := [], map[], map[];
    }

    method Add(index: FactoryIndex)
      requires WellFormed(State())
      modifies this
      ensures State() == Added(old(State()), index)
    {
      factories := factories + [Factory(index, {}, false, false, false)];
      data := data[index := |factories| - 1];
    }

    method Get(index: FactoryIndex) returns (k: FactoryRef)
      requires WellFormed(State())
      modifies this
      ensures State() == if index in old(data) then old(State()) else Added(old(State()), index)
      ensures index in data && k == data[index]
    {
      if index !in data {
        Add(index);
      }
      k := data[index];
    }

    /** The factory Start works with: a dead one is dropped and created anew. */
    method GetUsable(index: FactoryIndex) returns (k: FactoryRef)
      requires WellFormed(State())
      modifies this
      ensures State() == Gotten(old(State()), index)
      ensures k == data[index]
    {
      k := Get(index);
      if factories[k].started && factories[k].exited {
        factories := factories[k := factories[k].(cancelled := true)];
        data := data - {index};
        k := Get(index);
      }
    }

    /** Start, up to the wait for the cache; `handlerOk` says whether AddEventHandler succeeds. */
    method Start(id: InformerId, index: FactoryIndex, handlerOk: bool) returns (ok: bool)
      requires Valid()
      modifies this
      ensures Valid() && ok == handlerOk
      ensures State() == Started(old(State()), id, index, handlerOk)
    {
      StartKeepsInv(State(), id, index, handlerOk);
      var k := GetUsable(index);
      if !handlerOk {
        return false;
      }
      var f := factories[k];
      f := f.(handlerRegistrations := f.handlerRegistrations + {id});
      if !f.started {
        f := f.(started := true);
      }
      factories := factories[k := f];
      owner := owner[(id, index) := k];
      ok := true;
    }

    method Stop(id: InformerId, index: FactoryIndex)
      requires Valid()
      modifies this
      ensures Valid()
      ensures State() == Stopped(old(State()), id, index)
    {
      StoppedKeepsInv(State(), id, index);
      StoppedIsAtOnce(State(), id, index);
      Unregister(id, index);
    }

    /** The body of Stop. */
    method Unregister(id: InformerId, index: FactoryIndex)
      requires WellFormed(State())
      modifies this
      ensures State() == StoppedAtOnce(old(State()), id, index)
    {
      owner := owner - {(id, index)};
      if index !in data {
        return;
      }
      var k := data[index];
      if id in factories[k].handlerRegistrations {
        var f := factories[k];
        factories := factories[k := f.(handlerRegistrations := f.handlerRegistrations - {id})];
        if factories[k].handlerRegistrations == {} {
          factories := factories[k := factories[k].(cancelled := true)];
          // <-done: wait for the informer to exit
          factories := factories[k := factories[k].(exited := factories[k].started)];
          data := data - {index};
        }
      }
    }

    method CancelAll()
      requires WellFormed(State())
      modifies `factories
      ensures factories == ResetDone(old(State())).factories
    {
      ghost var before := factories;
      var todo := data.Keys;
      while todo != {}
        invariant todo <= data.Keys && |factories| == |before|
        invariant forall k :: 0 <= k < |factories| ==>
                    var f := before[k];
                    factories[k] == if f.index in data && data[f.index] == k && f.index !in todo then f.(cancelled := true) else f
        decreases |todo|
      {
        var i :| i in todo;
        factories := factories[data[i] := factories[data[i]].(cancelled := true)];
        todo := todo - {i};
      }
    }

    method Reset()
      requires Valid()
      modifies this
      ensures Valid()
      ensures State() == ResetDone(old(State()))
    {
      ResetKeepsInv(State());
      CancelAll();
      data := map[];
    }

    /** Environment: an informer goroutine returns. */
    method InformerExits(k: FactoryRef)
      requires Valid() && k < |factories|
      modifies this
      ensures Valid()
      ensures State() == Exited(old(State()), k)
    {
      ExitKeepsInv(State(), k);
      factories := factories[k := factories[k].(exited := factories[k].started)];
    }
  }
}
