/** pkg/shell-operator/combine_binding_context.go and `CombineBindingContextForHook` of operator.go:
    consecutive tasks of one hook are combined into one run, and runs of contexts with the same group
    are compacted into their last context. */
module CombineBindingContext {
  import opened Common
  import opened HookConfigV1
  import opened HookController

  datatype HookMetadata = HookMetadata(
    hookName: string,
    group: string,
    bindingType: BindingType,
    bindingContext: seq<BindingContext>,
    allowFailure: bool,
    monitorIDs: seq<string>,
    executeOnSynchronization: bool)

  datatype Task = Task(id: string, taskType: string, metadata: Option<HookMetadata>)

  datatype CombineResult = CombineResult(bindingContexts: seq<BindingContext>, monitorIDs: seq<string>)

  // ---------------------------------------------------------------------
  // Compaction

  /** The context is ignored because the next one has the same group. */
  predicate Dropped(cs: seq<BindingContext>, i: nat)
    requires i < |cs|
  {
    cs[i].group != "" && i + 1 < |cs| && cs[i + 1].group == cs[i].group
  }

  function Compacted(cs: seq<BindingContext>): seq<BindingContext> {
    if cs == [] then [] else (if Dropped(cs, 0) then [] else [cs[0]]) + Compacted(cs[1..])
  }

  lemma CompactedNext(done: seq<BindingContext>, cs: seq<BindingContext>)
    requires cs != []
    ensures done + Compacted(cs) == (if Dropped(cs, 0) then done else done + [cs[0]]) + Compacted(cs[1..])
  {
    if Dropped(cs, 0) {
      assert [] + Compacted(cs[1..]) == Compacted(cs[1..]);
    } else {
      assert done + ([cs[0]] + Compacted(cs[1..])) == (done + [cs[0]]) + Compacted(cs[1..]);
    }
  }

  method Compact(combinedContext: seq<BindingContext>) returns (compactedContext: seq<BindingContext>)
    ensures compactedContext == Compacted(combinedContext)
  {
    compactedContext := [];
    for i := 0 to |combinedContext|
      invariant compactedContext + Compacted(combinedContext[i..]) == Compacted(combinedContext)
    {
      CompactedNext(compactedContext, combinedContext[i..]);
      var keep := true;
      var groupName := combinedContext[i].group;
      if groupName != "" && i + 1 <= |combinedContext| - 1 && combinedContext[i + 1].group == groupName {
        keep := false;
      }
      assert combinedContext[i..][1..] == combinedContext[i + 1..];
      if keep {
        compactedContext := compactedContext + [combinedContext[i]];
      }
    }
  }

  /** The length of the longest prefix whose contexts all have the group of the first. */
  function RunLength(cs: seq<BindingContext>): (n: nat)
    requires cs != []
    ensures 0 < n <= |cs|
    ensures forall i :: 0 <= i < n ==> cs[i].group == cs[0].group
    ensures n < |cs| ==> cs[n].group != cs[0].group
  {
    if |cs| > 1 && cs[1].group == cs[0].group then 1 + RunLength(cs[1..]) else 1
  }

  /** Reference definition: of each maximal run of one group keep the last context, of an ungrouped run keep all. */
  function LastOfEachRun(cs: seq<BindingContext>): seq<BindingContext> {
    if cs == [] then []
    else
      var n := RunLength(cs);
      (if cs[0].group == "" then cs[..n] else [cs[n - 1]]) + LastOfEachRun(cs[n..])
  }

  lemma {:induction false} CompactedRun(cs: seq<BindingContext>)
    requires cs != []
    ensures
      var n := RunLength(cs);
      Compacted(cs) == (if cs[0].group == "" then cs[..n] else [cs[n - 1]]) + Compacted(cs[n..])
    decreases |cs|
  {
    var n := RunLength(cs);
    if n > 1 {
      var tail := cs[1..];
      CompactedRun(tail);
      TakeDropCons(cs, n);
      if cs[0].group == "" {
        assert Compacted(cs) == [cs[0]] + Compacted(tail);
        ConsAppend(cs[0], tail[..n - 1], Compacted(cs[n..]));
      } else {
        assert Compacted(cs) == [] + Compacted(tail);
      }
    } else {
      assert cs[..1] == [cs[0]];
    }
  }

  /** Compaction keeps every ungrouped context and exactly the last of each maximal run of one group. */
  lemma {:induction false} CompactionKeepsLastOfEachRun(cs: seq<BindingContext>)
    ensures Compacted(cs) == LastOfEachRun(cs)
    decreases |cs|
  {
    if cs != [] {
      CompactedRun(cs);
      CompactionKeepsLastOfEachRun(cs[RunLength(cs)..]);
    }
  }

  predicate IsCompact(cs: seq<BindingContext>) {
    forall i :: 0 <= i < |cs| ==> !Dropped(cs, i)
  }

  lemma {:induction false} CompactedHead(cs: seq<BindingContext>)
    requires cs != []
    ensures Compacted(cs) != [] && Compacted(cs)[0] == (if cs[0].group == "" then cs[0] else cs[RunLength(cs) - 1])
    ensures Compacted(cs)[0].group == cs[0].group
  {
    CompactedRun(cs);
  }

  lemma {:induction false} FixedIfCompact(cs: seq<BindingContext>)
    requires IsCompact(cs)
    ensures Compacted(cs) == cs
  {
    if cs != [] {
      assert !Dropped(cs, 0);
      forall i | 0 <= i < |cs[1..]|
        ensures !Dropped(cs[1..], i)
      {
        assert !Dropped(cs, i + 1);
      }
      FixedIfCompact(cs[1..]);
    }
  }

  lemma {:induction false} CompactedIsCompact(cs: seq<BindingContext>)
    ensures IsCompact(Compacted(cs))
  {
    if cs != [] {
      CompactedIsCompact(cs[1..]);
      if !Dropped(cs, 0) {
        var rest := Compacted(cs[1..]);
        if |cs| > 1 {
          CompactedHead(cs[1..]);
        }
        var out := [cs[0]] + rest;
        assert Compacted(cs) == out;
        forall i | 0 <= i < |out|
          ensures !Dropped(out, i)
        {
          if i == 0 {
            assert |cs| == 1 ==> rest == [];
          } else {
            assert !Dropped(rest, i - 1);
          }
        }
      } else {
        assert Compacted(cs) == Compacted(cs[1..]);
      }
    }
  }

  /** No two neighbours of the result share a group, compacting again changes nothing, and a list is
      unchanged only if it already was in this form. */
  lemma CompactionNormalForm(cs: seq<BindingContext>)
    ensures IsCompact(Compacted(cs))
    ensures Compacted(Compacted(cs)) == Compacted(cs)
    ensures Compacted(cs) == cs <==> IsCompact(cs)
  {
    CompactedIsCompact(cs);
    FixedIfCompact(Compacted(cs));
    if IsCompact(cs) {
      FixedIfCompact(cs);
    }
  }

  lemma CompactedCons(c: BindingContext, cs: seq<BindingContext>)
    ensures
      var kept := c.group == "" || cs == [] || cs[0].group != c.group;
      Compacted([c] + cs) == (if kept then [c] else []) + Compacted(cs)
  {
    assert ([c] + cs)[1..] == cs;
  }

  lemma FirstIsDropped(c: BindingContext, tail: seq<BindingContext>, b: seq<BindingContext>)
    requires tail != [] && c.group != "" && tail[0].group == c.group
    ensures Compacted([c] + tail) == Compacted(tail) && Compacted([c] + (tail + b)) == Compacted(tail + b)
  {
    CompactedCons(c, tail);
    CompactedCons(c, tail + b);
    assert [] + Compacted(tail) == Compacted(tail) && [] + Compacted(tail + b) == Compacted(tail + b);
  }

  lemma FirstIsKept(c: BindingContext, tail: seq<BindingContext>, b: seq<BindingContext>)
    requires c.group == "" || tail == [] || tail[0].group != c.group
    requires Compacted(Compacted(tail) + b) == Compacted(tail + b)
    ensures Compacted(Compacted([c] + tail) + b) == Compacted([c] + (tail + b))
  {
    var rest := Compacted(tail);
    CompactedCons(c, tail);
    AppendAssociates([c], rest, b);
    CompactedCons(c, rest + b);
    CompactedCons(c, tail + b);
    if tail != [] {
      CompactedHead(tail);
      assert (rest + b)[0] == rest[0] && (tail + b)[0] == tail[0];
    }
  }

  /** Compacting early is harmless: what is combined later gives the same result. */
  lemma {:induction false} CompactInSteps(a: seq<BindingContext>, b: seq<BindingContext>)
    ensures Compacted(Compacted(a) + b) == Compacted(a + b)
    decreases |a|
  {
    if a == [] {
      assert [] + b == b;
    } else {
      var c, tail := a[0], a[1..];
      assert a == [c] + tail;
      AppendAssociates([c], tail, b);
      CompactInSteps(tail, b);
      if c.group != "" && tail != [] && tail[0].group == c.group {
        FirstIsDropped(c, tail, b);
      } else {
        FirstIsKept(c, tail, b);
      }
    }
  }

  /** Where the context that stands for `cs[i]` ends up: the number of contexts kept before it. */
  function Position(cs: seq<BindingContext>, i: nat): nat
    requires i < |cs|
  {
    if i == 0 then 0 else (if Dropped(cs, 0) then 0 else 1) + Position(cs[1..], i - 1)
  }

  /** The end of the run of `cs[i]`. */
  function EndOfRun(cs: seq<BindingContext>, i: nat): (j: nat)
    requires i < |cs|
    ensures i <= j < |cs|
    ensures !Dropped(cs, j) && forall k :: i <= k <= j ==> cs[k].group == cs[i].group
    decreases |cs| - i
  {
    if Dropped(cs, i) then EndOfRun(cs, i + 1) else i
  }

  lemma {:induction false} EndOfRunShift(cs: seq<BindingContext>, i: nat)
    requires 0 < i < |cs|
    ensures EndOfRun(cs[1..], i - 1) == EndOfRun(cs, i) - 1
    decreases |cs| - i
  {
    assert Dropped(cs[1..], i - 1) <==> Dropped(cs, i);
    if Dropped(cs, i) {
      EndOfRunShift(cs, i + 1);
    }
  }

  /** Each context is represented in the result by the last one of its run. */
  lemma {:induction false} RepresentedByEndOfRun(cs: seq<BindingContext>, i: nat)
    requires i < |cs|
    ensures Position(cs, i) < |Compacted(cs)| && Compacted(cs)[Position(cs, i)] == cs[EndOfRun(cs, i)]
    decreases |cs|
  {
    if i > 0 {
      RepresentedByEndOfRun(cs[1..], i - 1);
      EndOfRunShift(cs, i);
    } else if Dropped(cs, 0) {
      RepresentedByEndOfRun(cs[1..], 0);
      EndOfRunShift(cs, 1);
    }
  }

  // ---------------------------------------------------------------------
  // Compaction loses no group data

  /** The context belongs to a binding of the hook with its name, type and group. */
  ghost predicate Generated(c: HookConfig, bc: BindingContext) {
    bc.group != "" ==> exists b :: b in c.Bindings(bc.bindingType) && b.bindingName == bc.binding && b.group == bc.group
  }

  /** The context has a snapshot of every kubernetes binding of the group. */
  ghost predicate CoversGroup(c: HookConfig, group: string, bc: BindingContext) {
    forall k :: k in c.onKubernetesEvents && k.group == group ==> k.bindingName in bc.snapshots
  }

  /** For each grouped binding, the first binding with its name, which is the one that is looked up,
      includes the whole group. */
  ghost predicate FirstMatchCovers(c: HookConfig) {
    forall t: BindingType, b, k ::
      b in c.Bindings(t) && b.group != "" && k in c.onKubernetesEvents && k.group == b.group
      ==> k.bindingName in IncludeSnapshotsFrom(Converted(c), t, b.bindingName)
  }

  /** When a grouped context is dropped, the context that stands for it has, once its snapshots are
      updated, those of all kubernetes bindings of the group. */
  ghost predicate DroppedContextsAreCovered(c: HookConfig) {
    forall cs, i, after, cache :: DroppedAndRefreshed(c, cs, i, after, cache) ==> IsCovered(c, cs, i, after)
  }

  /** Context number `i` is dropped from contexts of the hook, and then snapshots are updated. */
  ghost predicate DroppedAndRefreshed(c: HookConfig, cs: seq<BindingContext>, i: nat, after: seq<BindingContext>, cache: SnapshotCache) {
    && i < |cs| && Dropped(cs, i) && (forall bc :: bc in cs ==> Generated(c, bc))
    && Refreshed(Converted(c), Compacted(cs), after, cache)
  }

  ghost predicate IsCovered(c: HookConfig, cs: seq<BindingContext>, i: nat, after: seq<BindingContext>)
    requires i < |cs|
  {
    && Position(cs, i) < |after|
    && after[Position(cs, i)].group == cs[i].group
    && CoversGroup(c, cs[i].group, after[Position(cs, i)])
  }

  lemma CoveredIfFirstMatchCovers(c: HookConfig, cs: seq<BindingContext>, i: nat, after: seq<BindingContext>, cache: SnapshotCache)
    requires FirstMatchCovers(c) && DroppedAndRefreshed(c, cs, i, after, cache)
    ensures IsCovered(c, cs, i, after)
  {
    RepresentedByEndOfRun(cs, i);
    var p, j := Position(cs, i), EndOfRun(cs, i);
    var bc := cs[j];
    assert RefreshedOne(Converted(c), Compacted(cs)[p], after[p], cache);
    assert Generated(c, bc);
    var b :| b in c.Bindings(bc.bindingType) && b.bindingName == bc.binding && b.group == bc.group;
    forall k | k in c.onKubernetesEvents && k.group == cs[i].group
      ensures k.bindingName in after[p].snapshots
    {
      assert k.bindingName in IncludeSnapshotsFrom(Converted(c), bc.bindingType, bc.binding);
    }
  }

  lemma TwiceTheSameContext(bc: BindingContext)
    requires bc.group != ""
    ensures Dropped([bc, bc], 0) && Position([bc, bc], 0) == 0 && Compacted([bc, bc]) == [bc]
  {
    assert [bc, bc][1..] == [bc] && [bc][1..] == [];
    assert Compacted([bc]) == [bc] + Compacted([]);
  }

  /** A refresh in which no snapshot has objects. */
  lemma BareRefresh(cfg: HookConfig, bc: BindingContext) returns (r: BindingContext, cache: SnapshotCache)
    requires !bc.IsSynchronization()
    ensures Refreshed(cfg, [bc], [r], cache)
    ensures forall n :: n in r.snapshots ==> n in IncludeSnapshotsFrom(cfg, bc.bindingType, bc.binding)
  {
    var names := IncludeSnapshotsFrom(cfg, bc.bindingType, bc.binding);
    cache := map n | n in names :: None;
    r := bc.(snapshots := map n | n in names :: []);
    assert RefreshedOne(cfg, bc, r, cache);
  }

  lemma UncoveredMatchLosesData(c: HookConfig, t: BindingType, b: BindingConfig, k: BindingConfig)
    requires DroppedContextsAreCovered(c)
    requires b in c.Bindings(t) && b.group != "" && k in c.onKubernetesEvents && k.group == b.group
    ensures k.bindingName in IncludeSnapshotsFrom(Converted(c), t, b.bindingName)
  {
    var bc := BindingContext(b.bindingName, t, b.group, Event, "", None, map[]);
    var cs := [bc, bc];
    TwiceTheSameContext(bc);
    var r, cache := BareRefresh(Converted(c), bc);
    assert Generated(c, bc);
    assert DroppedAndRefreshed(c, cs, 0, [r], cache);
    assert IsCovered(c, cs, 0, [r]);
    assert k.bindingName in r.snapshots;
  }

  /** Compaction loses no group data, exactly: it holds for all contexts a hook can get if and only if
      the binding found first under each grouped binding's name includes the group. */
  lemma CompactionKeepsGroupDataIff(c: HookConfig)
    ensures DroppedContextsAreCovered(c) <==> FirstMatchCovers(c)
  {
    if FirstMatchCovers(c) {
      forall cs, i, after, cache | DroppedAndRefreshed(c, cs, i, after, cache)
        ensures IsCovered(c, cs, i, after)
      {
        CoveredIfFirstMatchCovers(c, cs, i, after, cache);
      }
    }
    if DroppedContextsAreCovered(c) {
      forall t: BindingType, b, k | b in c.Bindings(t) && b.group != "" && k in c.onKubernetesEvents && k.group == b.group
        ensures k.bindingName in IncludeSnapshotsFrom(Converted(c), t, b.bindingName)
      {
        UncoveredMatchLosesData(c, t, b, k);
      }
    }
  }

  lemma UniqueNameIsFirstMatch(c: HookConfig, t: BindingType, b: BindingConfig, k: BindingConfig)
    requires UniqueNames(c.Bindings(t))
    requires b in c.Bindings(t) && b.group != "" && k in c.onKubernetesEvents && k.group == b.group
    ensures k.bindingName in IncludeSnapshotsFrom(Converted(c), t, b.bindingName)
  {
    var i :| 0 <= i < |c.Bindings(t)| && c.Bindings(t)[i] == b;
    GroupIncludes(c, t, i, k);
    ConvertedKeepsUnique(c, t);
    FirstMatchOfUnique(Converted(c).Bindings(t), i);
  }

  lemma GroupIncludes(c: HookConfig, t: BindingType, i: nat, k: BindingConfig)
    requires i < |c.Bindings(t)| && c.Bindings(t)[i].group != "" && k in c.onKubernetesEvents && k.group == c.Bindings(t)[i].group
    ensures |Converted(c).Bindings(t)| == |c.Bindings(t)|
    ensures Converted(c).Bindings(t)[i].bindingName == c.Bindings(t)[i].bindingName
    ensures k.bindingName in Converted(c).Bindings(t)[i].includeSnapshotsFrom
  {
    GroupSharesSnapshots(c, t, i);
  }

  /** Unique names within each binding type are enough. */
  lemma UniqueNamesKeepGroupData(c: HookConfig)
    requires forall t: BindingType :: UniqueNames(c.Bindings(t))
    ensures DroppedContextsAreCovered(c)
  {
    forall t: BindingType, b, k | b in c.Bindings(t) && b.group != "" && k in c.onKubernetesEvents && k.group == b.group
      ensures k.bindingName in IncludeSnapshotsFrom(Converted(c), t, b.bindingName)
    {
      UniqueNameIsFirstMatch(c, t, b, k);
    }
    CompactionKeepsGroupDataIff(c);
  }

  /** Two kubernetes bindings without a name are both called "kubernetes". If only the second is in a group
      with a third, the first shadows it, and the group's snapshots are lost. */
  lemma UnnamedBindingsCanLoseGroupData()
    ensures
      var kube := [BindingConfig("kubernetes", "", []), BindingConfig("kubernetes", "g", []), BindingConfig("pods", "g", [])];
      !DroppedContextsAreCovered(HookConfig(kube, [], [], [], []))
  {
    var kube := [BindingConfig("kubernetes", "", []), BindingConfig("kubernetes", "g", []), BindingConfig("pods", "g", [])];
    var c := HookConfig(kube, [], [], [], []);
    var bs := Converted(c).Bindings(OnKubernetesEvent);
    assert bs[0] == WithGroupSnapshots(kube, kube[0]) == kube[0];
    assert FirstMatch(bs, "kubernetes") == Some(kube[0]);
    assert IncludeSnapshotsFrom(Converted(c), OnKubernetesEvent, "kubernetes") == [];
    assert kube[1] in c.Bindings(OnKubernetesEvent) && kube[2] in c.onKubernetesEvents;
    assert !FirstMatchCovers(c);
    CompactionKeepsGroupDataIff(c);
  }

  // ---------------------------------------------------------------------
  // Combining tasks of one queue

  /** A task for the same hook and of the same type; a task without metadata stops the combination. */
  predicate Combinable(t: Task, tsk: Task) {
    && t.metadata.Some? && tsk.metadata.Some?
    && tsk.metadata.value.hookName == t.metadata.value.hookName
    && tsk.taskType == t.taskType
  }

  /** The tasks the scan of the queue collects; the current task is ignored. */
  function Absorbed(t: Task, queue: seq<Task>): seq<Task> {
    if queue == [] then []
    else if queue[0].id == t.id then Absorbed(t, queue[1..])
    else if Combinable(t, queue[0]) then [queue[0]] + Absorbed(t, queue[1..])
    else []
  }

  /** The same with the stop function of the exported variant. */
  function AbsorbedUntil(t: Task, queue: seq<Task>, stopCombineFn: Option<Task -> bool>): seq<Task> {
    if queue == [] then []
    else if queue[0].id == t.id then AbsorbedUntil(t, queue[1..], stopCombineFn)
    else if Combinable(t, queue[0]) && !(stopCombineFn.Some? && stopCombineFn.value(queue[0]))
    then [queue[0]] + AbsorbedUntil(t, queue[1..], stopCombineFn)
    else []
  }

  function Others(t: Task, queue: seq<Task>): seq<Task> {
    if queue == [] then []
    else (if queue[0].id == t.id then [] else [queue[0]]) + Others(t, queue[1..])
  }

  predicate DistinctIds(queue: seq<Task>) {
    forall i, j :: 0 <= i < j < |queue| ==> queue[i].id != queue[j].id
  }

  /** The absorbed tasks are the longest run of other tasks with metadata, for the same hook and of the same type,
      before the stop function, if there is one, objects. */
  lemma {:induction false} AbsorbedIsLongestRun(t: Task, queue: seq<Task>, stopCombineFn: Option<Task -> bool>, i: nat)
    requires i <= |AbsorbedUntil(t, queue, stopCombineFn)| && i < |Others(t, queue)|
    ensures AbsorbedUntil(t, queue, stopCombineFn) <= Others(t, queue)
    ensures
      var k := Others(t, queue)[i];
      i < |AbsorbedUntil(t, queue, stopCombineFn)|
      <==> && t.metadata.Some? && k.metadata.Some?
           && k.metadata.value.hookName == t.metadata.value.hookName && k.taskType == t.taskType
           && (stopCombineFn.Some? ==> !stopCombineFn.value(k))
  {
    AbsorbedArePrefix(t, queue, stopCombineFn);
    if queue[0].id == t.id {
      assert Others(t, queue) == Others(t, queue[1..]);
      AbsorbedIsLongestRun(t, queue[1..], stopCombineFn, i);
    } else if i > 0 {
      assert Others(t, queue)[1..] == Others(t, queue[1..]);
      AbsorbedIsLongestRun(t, queue[1..], stopCombineFn, i - 1);
    }
  }

  lemma {:induction false} AbsorbedArePrefix(t: Task, queue: seq<Task>, stopCombineFn: Option<Task -> bool>)
    ensures AbsorbedUntil(t, queue, stopCombineFn) <= Others(t, queue)
  {
    if queue != [] {
      AbsorbedArePrefix(t, queue[1..], stopCombineFn);
      if queue[0].id == t.id {
        assert Others(t, queue) == Others(t, queue[1..]);
      }
    }
  }

  /** The exported variant without a stop function collects the same tasks. */
  lemma {:induction false} NilStopIsPrivateVersion(t: Task, queue: seq<Task>)
    ensures AbsorbedUntil(t, queue, None) == Absorbed(t, queue)
  {
    if queue != [] {
      NilStopIsPrivateVersion(t, queue[1..]);
    }
  }

  /** The filter map: true for the current task, false for absorbed ones. */
  function TasksFilter(t: Task, absorbed: seq<Task>): map<string, bool> {
    if absorbed == [] then map[t.id := true]
    else TasksFilter(t, absorbed[..|absorbed| - 1])[absorbed[|absorbed| - 1].id := false]
  }

  /** DeleteFunc: tasks for which the filter says false are removed, all others stay in order. */
  function Kept(filter: map<string, bool>, queue: seq<Task>): seq<Task> {
    if queue == [] then []
    else (if queue[0].id in filter && !filter[queue[0].id] then [] else [queue[0]]) + Kept(filter, queue[1..])
  }

  function ContextsOf(tasks: seq<Task>): seq<BindingContext> {
    if tasks == [] then []
    else
      var last := tasks[|tasks| - 1];
      ContextsOf(tasks[..|tasks| - 1]) + (if last.metadata.Some? then last.metadata.value.bindingContext else [])
  }

  function MonitorIDsOf(tasks: seq<Task>): seq<string> {
    if tasks == [] then []
    else
      var last := tasks[|tasks| - 1];
      MonitorIDsOf(tasks[..|tasks| - 1]) + (if last.metadata.Some? then last.metadata.value.monitorIDs else [])
  }

  /** What the absorbed tasks carry, one after the other. */
  lemma {:induction false} CollectedInOrder(tasks: seq<Task>)
    requires forall k :: k in tasks ==> k.metadata.Some?
    ensures ContextsOf(tasks) == Concat(seq(|tasks|, i requires 0 <= i < |tasks| && tasks[i] in tasks => tasks[i].metadata.value.bindingContext))
    ensures MonitorIDsOf(tasks) == Concat(seq(|tasks|, i requires 0 <= i < |tasks| && tasks[i] in tasks => tasks[i].metadata.value.monitorIDs))
  {
    if tasks != [] {
      var n := |tasks| - 1;
      var init := tasks[..n];
      CollectedInOrder(init);
      var cs := seq(n, i requires 0 <= i < n && init[i] in init => init[i].metadata.value.bindingContext);
      var ids := seq(n, i requires 0 <= i < n && init[i] in init => init[i].metadata.value.monitorIDs);
      ConcatSnoc(cs, tasks[n].metadata.value.bindingContext);
      ConcatSnoc(ids, tasks[n].metadata.value.monitorIDs);
      assert seq(|tasks|, i requires 0 <= i < |tasks| && tasks[i] in tasks => tasks[i].metadata.value.bindingContext)
          == cs + [tasks[n].metadata.value.bindingContext];
      assert seq(|tasks|, i requires 0 <= i < |tasks| && tasks[i] in tasks => tasks[i].metadata.value.monitorIDs)
          == ids + [tasks[n].metadata.value.monitorIDs];
    }
  }

  /** What a combination returns: nil if there is nothing to combine. */
  function Combination(t: Task, absorbed: seq<Task>): Option<CombineResult> {
    if t.metadata.None? || absorbed == [] then None
    else Some(CombineResult(Compacted(t.metadata.value.bindingContext + ContextsOf(absorbed)),
                            t.metadata.value.monitorIDs + MonitorIDsOf(absorbed)))
  }

  function IdsOf(tasks: seq<Task>): set<string> {
    set k | k in tasks :: k.id
  }

  lemma {:induction false} FilterKeys(t: Task, absorbed: seq<Task>)
    requires t.id !in IdsOf(absorbed)
    ensures
      var f := TasksFilter(t, absorbed);
      forall id :: (id in f && !f[id]) <==> id in IdsOf(absorbed)
  {
    if absorbed != [] {
      var init, last := absorbed[..|absorbed| - 1], absorbed[|absorbed| - 1];
      assert absorbed == init + [last];
      assert IdsOf(absorbed) == IdsOf(init) + {last.id};
      FilterKeys(t, init);
    }
  }

  lemma {:induction false} KeptAppend(filter: map<string, bool>, a: seq<Task>, b: seq<Task>)
    ensures Kept(filter, a + b) == Kept(filter, a) + Kept(filter, b)
    decreases |a|
  {
    if a == [] {
      assert a + b == b;
    } else {
      assert (a + b)[1..] == a[1..] + b;
      KeptAppend(filter, a[1..], b);
    }
  }

  lemma {:induction false} AllKept(filter: map<string, bool>, queue: seq<Task>)
    requires forall k :: k in queue ==> !(k.id in filter && !filter[k.id])
    ensures Kept(filter, queue) == queue
  {
    if queue != [] {
      AllKept(filter, queue[1..]);
    }
  }

  lemma {:induction false} AllDeleted(filter: map<string, bool>, queue: seq<Task>)
    requires forall k :: k in queue ==> k.id in filter && !filter[k.id]
    ensures Kept(filter, queue) == []
  {
    if queue != [] {
      assert queue[0] in queue;
      AllDeleted(filter, queue[1..]);
    }
  }

  /** The current task, if the scan saw it. */
  function Current(t: Task, queue: seq<Task>): seq<Task> {
    if queue == [] then []
    else (if queue[0].id == t.id then [queue[0]] else []) + Current(t, queue[1..])
  }

  /** How far into the queue the scan gets before it stops. */
  function Scanned(t: Task, queue: seq<Task>): (m: nat)
    ensures m <= |queue|
    ensures m < |queue| ==> queue[m].id != t.id && !Combinable(t, queue[m])
  {
    if queue != [] && (queue[0].id == t.id || Combinable(t, queue[0])) then 1 + Scanned(t, queue[1..]) else 0
  }

  lemma {:induction false} AbsorbedAreScanned(t: Task, queue: seq<Task>)
    ensures Absorbed(t, queue) == Others(t, queue[..Scanned(t, queue)])
  {
    if queue != [] && (queue[0].id == t.id || Combinable(t, queue[0])) {
      var m := Scanned(t, queue);
      AbsorbedAreScanned(t, queue[1..]);
      assert queue[..m][1..] == queue[1..][..m - 1];
    }
  }

  lemma {:induction false} OthersElements(t: Task, queue: seq<Task>)
    ensures forall k :: k in Others(t, queue) <==> k in queue && k.id != t.id
  {
    if queue != [] {
      OthersElements(t, queue[1..]);
      assert queue == [queue[0]] + queue[1..];
    }
  }

  lemma {:induction false} OnlyCurrentKept(filter: map<string, bool>, t: Task, queue: seq<Task>)
    requires forall k :: k in queue ==> ((k.id in filter && !filter[k.id]) <==> k.id != t.id)
    ensures Kept(filter, queue) == Current(t, queue)
  {
    if queue != [] {
      assert queue[0] in queue;
      OnlyCurrentKept(filter, t, queue[1..]);
    }
  }

  lemma DistinctParts(a: seq<Task>, b: seq<Task>)
    requires DistinctIds(a + b)
    ensures forall k, l :: k in a && l in b ==> k.id != l.id
  {
    forall k, l | k in a && l in b
      ensures k.id != l.id
    {
      var i :| 0 <= i < |a| && a[i] == k;
      var j :| 0 <= j < |b| && b[j] == l;
      assert (a + b)[i].id != (a + b)[|a| + j].id;
    }
  }

  lemma KeptOfParts(t: Task, seen: seq<Task>, rest: seq<Task>)
    requires DistinctIds(seen + rest)
    ensures Kept(TasksFilter(t, Others(t, seen)), seen + rest) == Current(t, seen) + rest
  {
    var absorbed := Others(t, seen);
    var filter := TasksFilter(t, absorbed);
    OthersElements(t, seen);
    FilterKeys(t, absorbed);
    DistinctParts(seen, rest);
    KeptAppend(filter, seen, rest);
    forall k | k in seen
      ensures (k.id in filter && !filter[k.id]) <==> k.id != t.id
    {
      assert k in absorbed <==> k.id != t.id;
    }
    OnlyCurrentKept(filter, t, seen);
    AllKept(filter, rest);
  }

  lemma SplitQueue(t: Task, queue: seq<Task>, m: nat, late: seq<Task>)
    requires m <= |queue| && DistinctIds(queue + late)
    ensures Kept(TasksFilter(t, Others(t, queue[..m])), queue + late) == Current(t, queue[..m]) + queue[m..] + late
  {
    var seen, rest := queue[..m], queue[m..] + late;
    assert queue + late == seen + rest;
    KeptOfParts(t, seen, rest);
  }

  /** The exact effect on the queue, whatever was appended after the scan: of the scanned part only the
      current task stays, and everything behind it is untouched. */
  lemma QueueAfterCombine(t: Task, queue: seq<Task>, late: seq<Task>)
    requires DistinctIds(queue + late)
    ensures
      var m, absorbed := Scanned(t, queue), Absorbed(t, queue);
      && absorbed == Others(t, queue[..m])
      && Kept(TasksFilter(t, absorbed), queue + late) == Current(t, queue[..m]) + queue[m..] + late
  {
    AbsorbedAreScanned(t, queue);
    SplitQueue(t, queue, Scanned(t, queue), late);
  }

  /** In the usual case, the current task at the head: exactly the run behind it is removed. */
  lemma HeadAfterCombine(t: Task, queue: seq<Task>, late: seq<Task>)
    requires DistinctIds(queue + late) && queue != [] && queue[0].id == t.id
    ensures
      var absorbed := Absorbed(t, queue);
      && absorbed <= queue[1..]
      && Kept(TasksFilter(t, absorbed), queue + late) == [queue[0]] + queue[1 + |absorbed|..] + late
  {
    QueueAfterCombine(t, queue, late);
    var m := Scanned(t, queue);
    forall i | 0 < i < |queue|
      ensures queue[i].id != t.id
    {
      assert (queue + late)[i] == queue[i] && (queue + late)[0] == queue[0];
    }
    ScanFromHead(t, queue, m);
    assert queue[1..][..m - 1] == queue[1..m];
  }

  lemma ScanFromHead(t: Task, queue: seq<Task>, m: nat)
    requires 1 <= m <= |queue| && queue[0].id == t.id
    requires forall i :: 0 < i < |queue| ==> queue[i].id != t.id
    ensures Others(t, queue[..m]) == queue[1..m] && Current(t, queue[..m]) == [queue[0]]
  {
    var tail := queue[1..m];
    assert queue[..m][1..] == tail && [queue[0]] + [] == [queue[0]] && [] + tail == tail;
    NoneIsCurrent(t, tail);
  }

  /** The same without the current task. */
  lemma TasksBehindHead(t: Task, queue: seq<Task>, late: seq<Task>)
    requires DistinctIds(queue + late) && queue != [] && queue[0] == t
    ensures
      var absorbed, rest := Absorbed(t, queue[1..]), queue[1..];
      && Absorbed(t, queue) == absorbed <= rest
      && Kept(TasksFilter(t, absorbed), queue + late) == [t] + (rest[|absorbed|..] + late)
  {
    HeadAfterCombine(t, queue, late);
    var n := |Absorbed(t, queue)|;
    assert queue[1 + n..] == queue[1..][n..];
    assert [t] + queue[1 + n..] + late == [t] + (queue[1 + n..] + late);
  }

  lemma {:induction false} NoneIsCurrent(t: Task, queue: seq<Task>)
    requires forall k :: k in queue ==> k.id != t.id
    ensures Current(t, queue) == [] && Others(t, queue) == queue
  {
    if queue != [] {
      assert queue[0] in queue;
      NoneIsCurrent(t, queue[1..]);
    }
  }

  lemma KeptNext(filter: map<string, bool>, done: seq<Task>, queue: seq<Task>)
    requires queue != []
    ensures
      var removed := queue[0].id in filter && !filter[queue[0].id];
      done + Kept(filter, queue) == (if removed then done else done + [queue[0]]) + Kept(filter, queue[1..])
  {
    var rest := Kept(filter, queue[1..]);
    assert [] + rest == rest && done + ([queue[0]] + rest) == (done + [queue[0]]) + rest;
  }

  class TaskQueue {
    var items: seq<Task>

    constructor (items: seq<Task>)
      ensures this.items == items
    {
      this.items := items;
    }

    method GetSnapshot() returns (snapshot: seq<Task>)
      ensures snapshot == items
    {
      snapshot := items;
    }

    method AddTail(tasks: seq<Task>)
      modifies this
      ensures items == old(items) + tasks
    {
      items := items + tasks;
    }

    /** Removes each task for which the filter holds false. */
    method DeleteFunc(filter: map<string, bool>)
      modifies this
      ensures items == Kept(filter, old(items))
    {
      var kept := [];
      for i := 0 to |items|
        invariant items == old(items)
        invariant kept + Kept(filter, items[i..]) == Kept(filter, items)
      {
        assert items[i..][1..] == items[i + 1..];
        KeptNext(filter, kept, items[i..]);
        var keep := true;
        if items[i].id in filter {
          keep := filter[items[i].id];
        }
        if keep {
          kept := kept + [items[i]];
        }
      }
      items := kept;
    }
  }

  lemma AbsorbedUntilNext(t: Task, done: seq<Task>, queue: seq<Task>, stopCombineFn: Option<Task -> bool>)
    requires queue != []
    ensures
      var rest := AbsorbedUntil(t, queue[1..], stopCombineFn);
      done + AbsorbedUntil(t, queue, stopCombineFn)
      == if queue[0].id == t.id then done + rest
         else if Combinable(t, queue[0]) && !(stopCombineFn.Some? && stopCombineFn.value(queue[0])) then (done + [queue[0]]) + rest
         else done + []
  {
    var rest := AbsorbedUntil(t, queue[1..], stopCombineFn);
    assert (done + [queue[0]]) + rest == done + ([queue[0]] + rest);
  }

  /** The scan of the queue's snapshot. */
  method CollectTasks(snapshot: seq<Task>, t: Task) returns (otherTasks: seq<Task>)
    requires t.metadata.Some?
    ensures otherTasks == Absorbed(t, snapshot)
    ensures forall k :: k in otherTasks ==> k.metadata.Some?
  {
    otherTasks := [];
    var stopIterate := false;
    for i := 0 to |snapshot|
      invariant forall k :: k in otherTasks ==> k.metadata.Some?
      invariant Absorbed(t, snapshot) == otherTasks + (if stopIterate then [] else Absorbed(t, snapshot[i..]))
    {
      if stopIterate {
        continue;
      }
      var tsk := snapshot[i];
      AbsorbedUntilNext(t, otherTasks, snapshot[i..], None);
      NilStopIsPrivateVersion(t, snapshot[i..]);
      assert snapshot[i..][1..] == snapshot[i + 1..];
      NilStopIsPrivateVersion(t, snapshot[i + 1..]);
      if tsk.id == t.id {
        continue;
      }
      if tsk.metadata.None? {
        stopIterate := true;
        continue;
      }
      if tsk.metadata.value.hookName != t.metadata.value.hookName || t.taskType != tsk.taskType {
        stopIterate := true;
      }
      if !stopIterate {
        otherTasks := otherTasks + [tsk];
      }
    }
  }

  /** The scan of the exported variant. */
  method CollectTasksUntil(snapshot: seq<Task>, t: Task, stopCombineFn: Option<Task -> bool>) returns (otherTasks: seq<Task>)
    requires t.metadata.Some?
    ensures otherTasks == AbsorbedUntil(t, snapshot, stopCombineFn)
    ensures forall k :: k in otherTasks ==> k.metadata.Some?
  {
    otherTasks := [];
    var stopIterate := false;
    for i := 0 to |snapshot|
      invariant forall k :: k in otherTasks ==> k.metadata.Some?
      invariant AbsorbedUntil(t, snapshot, stopCombineFn)
             == otherTasks + (if stopIterate then [] else AbsorbedUntil(t, snapshot[i..], stopCombineFn))
    {
      if stopIterate {
        continue;
      }
      var tsk := snapshot[i];
      AbsorbedUntilNext(t, otherTasks, snapshot[i..], stopCombineFn);
      assert snapshot[i..][1..] == snapshot[i + 1..];
      if tsk.id == t.id {
        continue;
      }
      if tsk.metadata.None? {
        stopIterate := true;
        continue;
      }
      if tsk.metadata.value.hookName == t.metadata.value.hookName && t.taskType == tsk.taskType {
        if stopCombineFn.Some? {
          stopIterate := stopCombineFn.value(tsk);
        }
      } else {
        stopIterate := true;
      }
      if !stopIterate {
        otherTasks := otherTasks + [tsk];
      }
    }
  }

  /** The loop over the collected tasks. */
  method Gather(t: Task, otherTasks: seq<Task>)
    returns (combinedContext: seq<BindingContext>, monitorIDs: seq<string>, tasksFilter: map<string, bool>)
    requires t.metadata.Some? && forall k :: k in otherTasks ==> k.metadata.Some?
    ensures combinedContext == t.metadata.value.bindingContext + ContextsOf(otherTasks)
    ensures monitorIDs == t.metadata.value.monitorIDs + MonitorIDsOf(otherTasks)
    ensures tasksFilter == TasksFilter(t, otherTasks)
  {
    combinedContext := t.metadata.value.bindingContext;
    monitorIDs := t.metadata.value.monitorIDs;
    tasksFilter := map[t.id := true];
    for i := 0 to |otherTasks|
      invariant combinedContext == t.metadata.value.bindingContext + ContextsOf(otherTasks[..i])
      invariant monitorIDs == t.metadata.value.monitorIDs + MonitorIDsOf(otherTasks[..i])
      invariant tasksFilter == TasksFilter(t, otherTasks[..i])
    {
      var tsk := otherTasks[i];
      assert otherTasks[..i + 1][..i] == otherTasks[..i];
      AppendAssociates(t.metadata.value.bindingContext, ContextsOf(otherTasks[..i]), tsk.metadata.value.bindingContext);
      AppendAssociates(t.metadata.value.monitorIDs, MonitorIDsOf(otherTasks[..i]), tsk.metadata.value.monitorIDs);
      combinedContext := combinedContext + tsk.metadata.value.bindingContext;
      if |tsk.metadata.value.monitorIDs| > 0 {
        monitorIDs := monitorIDs + tsk.metadata.value.monitorIDs;
      }
      tasksFilter := tasksFilter[tsk.id := false];
    }
    assert otherTasks[..|otherTasks|] == otherTasks;
  }

  /** The part of both variants that follows the scan. Tasks are deleted from `own`, the queue that the current
      task names; `late` is what other goroutines append to it between the scan and the deletion. */
  method CombineTasks(own: TaskQueue, t: Task, otherTasks: seq<Task>, late: seq<Task>) returns (res: Option<CombineResult>)
    requires t.metadata.Some? && forall k :: k in otherTasks ==> k.metadata.Some?
    modifies own
    ensures res == Combination(t, otherTasks)
    ensures own.items == if otherTasks == [] then old(own.items) else Kept(TasksFilter(t, otherTasks), old(own.items) + late)
  {
    if |otherTasks| == 0 {
      return None;
    }
    var combinedContext, monitorIDs, tasksFilter := Gather(t, otherTasks);
    own.AddTail(late);
    own.DeleteFunc(tasksFilter);
    var compactedContext := Compact(combinedContext);
    res := Some(CombineResult(compactedContext, monitorIDs));
  }

  /** combineBindingContextForHook: the scanned queue may be another one than the task's own. */
  method CombineBindingContextForHookPrivate(q: TaskQueue?, own: TaskQueue, t: Task, late: seq<Task>)
    returns (res: Option<CombineResult>)
    modifies own
    ensures q == null || t.metadata.None? ==> res == None && own.items == old(own.items)
    ensures q != null && t.metadata.Some? ==>
              var absorbed := Absorbed(t, old(q.items));
              && res == Combination(t, absorbed)
              && own.items == if absorbed == [] then old(own.items) else Kept(TasksFilter(t, absorbed), old(own.items) + late)
  {
    if q == null || t.metadata.None? {
      return None;
    }
    var snapshot := q.GetSnapshot();
    var otherTasks := CollectTasks(snapshot, t);
    res := CombineTasks(own, t, otherTasks, late);
  }

  /** CombineBindingContextForHook, with a stop function. */
  method CombineBindingContextForHook(q: TaskQueue?, own: TaskQueue, t: Task, stopCombineFn: Option<Task -> bool>, late: seq<Task>)
    returns (res: Option<CombineResult>)
    modifies own
    ensures q == null || t.metadata.None? ==> res == None && own.items == old(own.items)
    ensures q != null && t.metadata.Some? ==>
              var absorbed := AbsorbedUntil(t, old(q.items), stopCombineFn);
              && res == Combination(t, absorbed)
              && own.items == if absorbed == [] then old(own.items) else Kept(TasksFilter(t, absorbed), old(own.items) + late)
  {
    if q == null || t.metadata.None? {
      return None;
    }
    var snapshot := q.GetSnapshot();
    var otherTasks := CollectTasksUntil(snapshot, t, stopCombineFn);
    res := CombineTasks(own, t, otherTasks, late);
  }
}
