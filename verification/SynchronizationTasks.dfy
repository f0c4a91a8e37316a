/** From enabled bindings to unlocked monitors: `taskHandleEnableKubernetesBindings` of
    pkg/shell-operator/operator.go puts one Synchronization task for each binding at the head of the queue, and
    the queue is worked off task by task, each with any number of failed attempts. */
module SynchronizationTasks {
  import opened Common
  import opened HookConfigV1
  import opened HookController
  import opened CombineBindingContext
  import opened ShellOperator
  import KB = KubernetesBindings

  // ---------------------------------------------------------------------
  // The tasks of one hook

  /** NewSyncHookRunTask (pkg/shell-operator/hook_task_factory.go); the task id is generated. */
  function SyncTask(id: string, hookName: string, info: KB.BindingExecutionInfo): Task
    requires info.kubernetesBinding.Some?
  {
    var b := info.kubernetesBinding.value;
    Task(id, "HookRun",
         Some(HookMetadata(hookName, info.group, OnKubernetesEvent, info.bindingContext, info.allowFailure,
                           [b.monitorId], b.executeHookOnSynchronization)))
  }

  function SyncTasks(ids: seq<string>, hookName: string, infos: seq<KB.BindingExecutionInfo>): seq<Task>
    requires |ids| == |infos| && forall i :: 0 <= i < |infos| ==> infos[i].kubernetesBinding.Some?
  {
    seq(|infos|, i requires 0 <= i < |infos| => SyncTask(ids[i], hookName, infos[i]))
  }

  /** The tasks that are made after a successful Enable. */
  ghost predicate TasksOf(r: KB.Outcome, ids: seq<string>, hookName: string, tasks: seq<Task>) {
    && !r.failed && |r.infos| == |ids| && (forall i :: 0 <= i < |ids| ==> r.infos[i].kubernetesBinding.Some?)
    && tasks == SyncTasks(ids, hookName, r.infos)
  }

  lemma InfosAreOwn(bs: KB.Bindings, w: KB.World, fails: set<nat>)
    requires KB.Inv(bs, w) && KB.DistinctIds(bs) && !KB.EnabledAll(w, bs, fails).failed
    ensures
      var infos := KB.EnabledAll(w, bs, fails).infos;
      |infos| == |bs| && forall i :: 0 <= i < |bs| ==> infos[i] == KB.InfoOf(KB.KubeEvent(bs[i].monitorId, Synchronization, [], None), bs[i])
  {
    var r := KB.EnabledAll(w, bs, fails);
    KB.SuccessServesEveryBinding(w, bs, fails);
    KB.EnableKeepsInv(bs, w, bs, fails);
    forall i | 0 <= i < |bs|
      ensures r.infos[i] == KB.InfoOf(KB.KubeEvent(bs[i].monitorId, Synchronization, [], None), bs[i])
    {
      KB.LinkIsOwn(bs, r.world, i);
    }
  }

  /** A task that runs a hook for one Synchronization. */
  predicate IsSyncTask(t: Task) {
    && t.metadata.Some?
    && var meta := t.metadata.value;
       && meta.bindingType == OnKubernetesEvent && |meta.bindingContext| == 1 && meta.bindingContext[0].IsSynchronization()
  }

  /** The Synchronization task of a binding. */
  predicate IsSyncTaskFor(t: Task, b: KB.OnKubernetesEventConfig) {
    IsSyncTask(t) && t.metadata.value.monitorIDs == [b.monitorId] && t.metadata.value.group == b.group
  }

  lemma SyncTaskOfInfo(id: string, hookName: string, b: KB.OnKubernetesEventConfig)
    ensures
      var info := KB.InfoOf(KB.KubeEvent(b.monitorId, Synchronization, [], None), b);
      info.kubernetesBinding == Some(b) && IsSyncTaskFor(SyncTask(id, hookName, info), b)
  {
  }

  /** One task for each binding, in order, that will unlock its monitor; none if enabling fails. The infos of
      enabled bindings have a binding, so that making the task cannot fail. */
  lemma SyncTaskForEachBinding(bs: KB.Bindings, w: KB.World, fails: set<nat>, ids: seq<string>, hookName: string)
    requires KB.Inv(bs, w) && KB.DistinctIds(bs) && |ids| == |bs|
    ensures
      var r := KB.EnabledAll(w, bs, fails);
      if r.failed then r.infos == []
      else
        && |r.infos| == |bs| && (forall i :: 0 <= i < |bs| ==> r.infos[i].kubernetesBinding == Some(bs[i]))
        && forall i :: 0 <= i < |bs| ==>
             var t, b := SyncTasks(ids, hookName, r.infos)[i], bs[i];
             && IsSyncTaskFor(t, b)
             && t.id == ids[i] && t.taskType == "HookRun"
             && t.metadata.value == HookMetadata(
                  hookName, b.group, OnKubernetesEvent,
                  [BindingContext(b.bindingName, OnKubernetesEvent, b.group, Synchronization, "", None, map[])],
                  b.allowFailure, [b.monitorId], b.executeHookOnSynchronization)
  {
    KB.SuccessServesEveryBinding(w, bs, fails);
    var r := KB.EnabledAll(w, bs, fails);
    if !r.failed {
      InfosAreOwn(bs, w, fails);
      forall i | 0 <= i < |bs|
        ensures r.infos[i] == KB.InfoOf(KB.KubeEvent(bs[i].monitorId, Synchronization, [], None), bs[i])
        ensures r.infos[i].kubernetesBinding == Some(bs[i]) && IsSyncTaskFor(SyncTask(ids[i], hookName, r.infos[i]), bs[i])
      {
        SyncTaskOfInfo(ids[i], hookName, bs[i]);
      }
    }
  }

  /** taskHandleEnableKubernetesBindings: the status and the tasks to put at the head of the queue. The metadata,
      the hook or its controller may be missing; a hook may have no kubernetes bindings controller. */
  method TaskHandleEnableKubernetesBindings(hookFound: bool, c: KB.KubernetesBindingsController?, hookName: string,
                                            fails: set<nat>, ids: seq<string>)
    returns (status: Status, hookRunTasks: seq<Task>)
    requires c != null ==> KB.Inv(c.kubernetesBindings, c.State()) && KB.DistinctIds(c.kubernetesBindings)
    requires c != null ==> |ids| == |c.kubernetesBindings|
    modifies if c == null then {} else {c}
    ensures !hookFound ==> status == Fail && hookRunTasks == [] && (c != null ==> c.State() == old(c.State()))
    ensures hookFound && c == null ==> status == Success && hookRunTasks == []
    ensures hookFound && c != null ==>
              var r := KB.EnabledAll(old(c.State()), c.kubernetesBindings, fails);
              && c.State() == r.world
              && if r.failed then status == Fail && hookRunTasks == []
                 else status == Success && TasksOf(r, ids, hookName, hookRunTasks)
  {
    hookRunTasks := [];
    if !hookFound {
      return Fail, [];
    }
    if c == null {
      return Success, [];
    }
    SyncTaskForEachBinding(c.kubernetesBindings, c.State(), fails, ids, hookName);
    var execInfos, err := c.EnableKubernetesBindings(fails);
    if err {
      return Fail, [];
    }
    hookRunTasks := CreateTasks(ids, hookName, execInfos);
    status := Success;
  }

  /** HandleEnableKubernetesBindings calls a function that appends one task for each info. */
  method CreateTasks(ids: seq<string>, hookName: string, execInfos: seq<KB.BindingExecutionInfo>) returns (hookRunTasks: seq<Task>)
    requires |ids| == |execInfos| && forall i :: 0 <= i < |execInfos| ==> execInfos[i].kubernetesBinding.Some?
    ensures hookRunTasks == SyncTasks(ids, hookName, execInfos)
  {
    hookRunTasks := [];
    for i := 0 to |execInfos|
      invariant hookRunTasks == SyncTasks(ids, hookName, execInfos)[..i]
    {
      hookRunTasks := hookRunTasks + [SyncTask(ids[i], hookName, execInfos[i])];
    }
  }

  // ---------------------------------------------------------------------
  // Working off a queue

  /** The task at the head is tried, without success, then with success, and leaves the queue. */
  datatype Round = Round(attempts: seq<Attempt>, last: Attempt)

  predicate Fits(version: string, w: World, r: Round) {
    && CanHandle(version, w) && IsCompact(w.head.metadata.value.bindingContext)
    && ForeignIds(w, r.attempts + [r.last]) && ForeignIds(w, r.attempts)
    && AllUnsuccessful(version, w, r.attempts)
    && StatusOf(version, AfterAll(version, w, r.attempts), r.last) == Success
  }

  function AfterRound(version: string, w: World, r: Round): World
    requires Fits(version, w, r)
  {
    After(version, AfterAll(version, w, r.attempts), r.last)
  }

  /** The tasks absorbed in the round. */
  function AbsorbedIn(version: string, w: World, r: Round): seq<Task>
    requires Fits(version, w, r)
  {
    AbsorbedByAll(version, w, r.attempts) + AbsorbedBy(version, AfterAll(version, w, r.attempts), r.last)
  }

  function ArrivedIn(version: string, w: World, r: Round): seq<Task>
    requires Fits(version, w, r)
  {
    ArrivedByAll(version, w, r.attempts) + ArrivedBy(version, AfterAll(version, w, r.attempts), r.last)
  }

  /** The contexts that the failed attempts collected begin with a run that ends in a Synchronization. */
  predicate EndsInSynchronization(version: string, w: World, r: Round)
    requires Fits(version, w, r)
  {
    var collected := w.head.metadata.value.bindingContext + ContextsOf(AbsorbedByAll(version, w, r.attempts));
    BeginsWithSynchronization(collected)
  }

  /** One round, exactly: what it unlocks, and where every task goes. */
  lemma RoundIsExact(version: string, w: World, r: Round)
    requires Fits(version, w, r)
    ensures
      var w1, absorbed := AfterRound(version, w, r), AbsorbedIn(version, w, r);
      && w.rest + ArrivedIn(version, w, r) == absorbed + w1.rest
      && w1.unlocked == (if EndsInSynchronization(version, w, r)
                         then w.unlocked + (w.head.metadata.value.monitorIDs + MonitorIDsOf(absorbed)) else w.unlocked)
  {
    var w0 := AfterAll(version, w, r.attempts);
    UnlockedOnSuccess(version, w, r.attempts, r.last);
    TasksAreConserved(version, w, r.attempts);
    LastAttemptIsFine(version, w, r.attempts, r.last);
    AttemptAbsorbs(version, w0, r.last);
    Regroup(w.rest, ArrivedByAll(version, w, r.attempts), ArrivedBy(version, w0, r.last),
            AbsorbedByAll(version, w, r.attempts), w0.rest, AbsorbedBy(version, w0, r.last), AfterRound(version, w, r).rest);
  }

  /** The queue, and the monitor IDs that were unlocked. */
  datatype Queue = Queue(tasks: seq<Task>, unlocked: seq<string>)

  function WorldOf(q: Queue): World
    requires q.tasks != []
  {
    World(q.tasks[0], q.tasks[1..], q.unlocked)
  }

  /** After Success the current task is removed. */
  function NextQueue(version: string, q: Queue, r: Round): Queue
    requires q.tasks != [] && Fits(version, WorldOf(q), r)
  {
    var w1 := AfterRound(version, WorldOf(q), r);
    Queue(w1.rest, w1.unlocked)
  }

  predicate CanWorkOff(version: string, q: Queue, rounds: seq<Round>)
    decreases |rounds|
  {
    rounds == [] ||
    (q.tasks != [] && Fits(version, WorldOf(q), rounds[0]) && CanWorkOff(version, NextQueue(version, q, rounds[0]), rounds[1..]))
  }

  function WorkedOff(version: string, q: Queue, rounds: seq<Round>): Queue
    requires CanWorkOff(version, q, rounds)
    decreases |rounds|
  {
    if rounds == [] then q else WorkedOff(version, NextQueue(version, q, rounds[0]), rounds[1..])
  }

  /** The task leaves the queue in this round. */
  predicate LeavesIn(version: string, q: Queue, r: Round, k: Task)
    requires q.tasks != [] && Fits(version, WorldOf(q), r)
  {
    k == q.tasks[0] || k in AbsorbedIn(version, WorldOf(q), r)
  }

  /** The first round that takes the task out of the queue, if there is one, is one that unlocks. */
  predicate LeavesWithUnlock(version: string, q: Queue, rounds: seq<Round>, k: Task)
    requires CanWorkOff(version, q, rounds)
    decreases |rounds|
  {
    rounds == [] ||
    (if LeavesIn(version, q, rounds[0], k) then EndsInSynchronization(version, WorldOf(q), rounds[0])
     else LeavesWithUnlock(version, NextQueue(version, q, rounds[0]), rounds[1..], k))
  }

  lemma {:induction false} UnlockedStays(version: string, q: Queue, rounds: seq<Round>)
    requires CanWorkOff(version, q, rounds)
    ensures q.unlocked <= WorkedOff(version, q, rounds).unlocked
    decreases |rounds|
  {
    if rounds != [] {
      RoundIsExact(version, WorldOf(q), rounds[0]);
      UnlockedStays(version, NextQueue(version, q, rounds[0]), rounds[1..]);
    }
  }

  lemma {:induction false} MonitorIDsOfMember(tasks: seq<Task>, k: Task, id: string)
    requires k in tasks && k.metadata.Some? && id in k.metadata.value.monitorIDs
    ensures id in MonitorIDsOf(tasks)
  {
    var init, last := tasks[..|tasks| - 1], tasks[|tasks| - 1];
    assert tasks == init + [last];
    if k in init {
      MonitorIDsOfMember(init, k, id);
    }
  }

  lemma RoundUnlocksLeaving(version: string, q: Queue, r: Round, k: Task, id: string)
    requires q.tasks != [] && Fits(version, WorldOf(q), r) && EndsInSynchronization(version, WorldOf(q), r)
    requires LeavesIn(version, q, r, k) && k.metadata.Some? && id in k.metadata.value.monitorIDs
    ensures id in NextQueue(version, q, r).unlocked
  {
    var w := WorldOf(q);
    RoundIsExact(version, w, r);
    if k != q.tasks[0] {
      MonitorIDsOfMember(AbsorbedIn(version, w, r), k, id);
    }
  }

  lemma StaysOrLeaves(version: string, q: Queue, r: Round, k: Task)
    requires q.tasks != [] && Fits(version, WorldOf(q), r) && k in q.tasks
    ensures LeavesIn(version, q, r, k) || k in NextQueue(version, q, r).tasks
  {
    var w := WorldOf(q);
    RoundIsExact(version, w, r);
    if k != w.head {
      InEitherPart(w.rest, ArrivedIn(version, w, r), AbsorbedIn(version, w, r), AfterRound(version, w, r).rest, k);
    }
  }

  lemma InEitherPart(rest: seq<Task>, arrived: seq<Task>, absorbed: seq<Task>, rest': seq<Task>, k: Task)
    requires rest + arrived == absorbed + rest' && k in rest
    ensures k in absorbed || k in rest'
  {
    assert k in rest + arrived;
  }

  /** A task that was in the queue and is gone has had its monitors unlocked, unless it left in a round whose
      contexts did not begin with a Synchronization. */
  lemma {:induction false} GoneIsUnlocked(version: string, q: Queue, rounds: seq<Round>, k: Task, id: string)
    requires CanWorkOff(version, q, rounds) && LeavesWithUnlock(version, q, rounds, k)
    requires k in q.tasks && k !in WorkedOff(version, q, rounds).tasks
    requires k.metadata.Some? && id in k.metadata.value.monitorIDs
    ensures id in WorkedOff(version, q, rounds).unlocked
    decreases |rounds|
  {
    var q1 := NextQueue(version, q, rounds[0]);
    if LeavesIn(version, q, rounds[0], k) {
      RoundUnlocksLeaving(version, q, rounds[0], k, id);
      UnlockedStays(version, q1, rounds[1..]);
    } else {
      StaysOrLeaves(version, q, rounds[0], k);
      GoneIsUnlocked(version, q1, rounds[1..], k, id);
    }
  }

  lemma TasksAreForBindings(bs: KB.Bindings, w: KB.World, fails: set<nat>, ids: seq<string>, hookName: string, tasks: seq<Task>)
    requires KB.Inv(bs, w) && KB.DistinctIds(bs) && |ids| == |bs|
    requires TasksOf(KB.EnabledAll(w, bs, fails), ids, hookName, tasks)
    ensures |tasks| == |bs| && forall i :: 0 <= i < |bs| ==> IsSyncTaskFor(tasks[i], bs[i])
    ensures forall i :: 0 <= i < |bs| ==> bs[i].monitorId in KB.EnabledAll(w, bs, fails).world.monitors
  {
    KB.SuccessServesEveryBinding(w, bs, fails);
    SyncTaskForEachBinding(bs, w, fails, ids, hookName);
  }

  /** All these tasks are gone, each in a round that unlocks. */
  ghost predicate AllGoneWithUnlock(version: string, q: Queue, rounds: seq<Round>, tasks: seq<Task>)
    requires CanWorkOff(version, q, rounds)
  {
    forall k :: k in tasks ==> LeavesWithUnlock(version, q, rounds, k) && k !in WorkedOff(version, q, rounds).tasks
  }

  /** From end to end: from any state that calls of the controller can reach, a successful Enable puts its tasks
      in front of the queue. Once the queue has worked them off, with any retries, combinations and tasks that
      arrive meanwhile, every monitor of the hook is there and has been unlocked, if none of the tasks left in
      a round that did not begin with a Synchronization. */
  lemma EnabledHookIsUnlocked(version: string, bs: KB.Bindings, w: KB.World, fails: set<nat>, ids: seq<string>, hookName: string,
                              tasks: seq<Task>, rest: seq<Task>, unlocked: seq<string>, rounds: seq<Round>)
    requires KB.Inv(bs, w) && KB.DistinctIds(bs) && |ids| == |bs|
    requires TasksOf(KB.EnabledAll(w, bs, fails), ids, hookName, tasks)
    requires CanWorkOff(version, Queue(tasks + rest, unlocked), rounds)
    requires AllGoneWithUnlock(version, Queue(tasks + rest, unlocked), rounds, tasks)
    ensures
      var end := WorkedOff(version, Queue(tasks + rest, unlocked), rounds);
      forall i :: 0 <= i < |bs| ==>
        bs[i].monitorId in KB.EnabledAll(w, bs, fails).world.monitors && bs[i].monitorId in end.unlocked
  {
    var q := Queue(tasks + rest, unlocked);
    TasksAreForBindings(bs, w, fails, ids, hookName, tasks);
    forall i | 0 <= i < |bs|
      ensures bs[i].monitorId in WorkedOff(version, q, rounds).unlocked
    {
      assert IsSyncTaskFor(tasks[i], bs[i]) && tasks[i] in tasks && tasks[i] in q.tasks;
      GoneIsUnlocked(version, q, rounds, tasks[i], bs[i].monitorId);
    }
  }

  // ---------------------------------------------------------------------
  // When each task is sure to unlock

  /** The hook did not fail in the round: what came before the success was interrupted. */
  predicate NoFailure(r: Round) {
    forall i :: 0 <= i < |r.attempts| ==> r.attempts[i].interrupted
  }

  predicate IsUngrouped(t: Task) {
    t.metadata.Some? && t.metadata.value.group == ""
  }

  /** A Synchronization task that absorbs nothing before its last attempt. */
  predicate RunsAlone(t: Task, r: Round) {
    IsSyncTask(t) && (IsUngrouped(t) || NoFailure(r))
  }

  lemma {:induction false} AloneAbsorbsNothing(version: string, w: World, attempts: seq<Attempt>)
    requires CanHandle(version, w) && IsCompact(w.head.metadata.value.bindingContext) && ForeignIds(w, attempts)
    requires IsSyncTask(w.head)
    requires w.head.metadata.value.group == "" || forall i :: 0 <= i < |attempts| ==> attempts[i].interrupted
    ensures AbsorbedByAll(version, w, attempts) == [] && AfterAll(version, w, attempts).head == w.head
    decreases |attempts|
  {
    if attempts != [] {
      NextIsFine(version, w, attempts);
      assert AbsorbedBy(version, w, attempts[0]) == [];
      assert After(version, w, attempts[0]).head == w.head;
      AloneAbsorbsNothing(version, After(version, w, attempts[0]), attempts[1..]);
    }
  }

  /** Its round unlocks, and it leaves at the head of the tasks it came with. */
  lemma AloneUnlocks(version: string, q: Queue, r: Round)
    requires q.tasks != [] && Fits(version, WorldOf(q), r) && RunsAlone(q.tasks[0], r)
    ensures EndsInSynchronization(version, WorldOf(q), r)
  {
    var w := WorldOf(q);
    AloneAbsorbsNothing(version, w, r.attempts);
    assert w.head.metadata.value.bindingContext + [] == w.head.metadata.value.bindingContext;
  }

  /** What is left of the first `n` tasks after a round: a part of them from some place on, still in front. */
  lemma FrontAfterRound(version: string, q: Queue, r: Round, mine: seq<Task>, other: seq<Task>)
    returns (k: nat, other': seq<Task>)
    requires mine != [] && q.tasks == mine + other && Fits(version, WorldOf(q), r)
    ensures 1 <= k <= |mine| && NextQueue(version, q, r).tasks == mine[k..] + other'
    ensures forall i :: 0 <= i < k ==> LeavesIn(version, q, r, mine[i])
  {
    var w := WorldOf(q);
    RoundIsExact(version, w, r);
    assert w.rest == mine[1..] + other;
    var absorbed, left := AbsorbedIn(version, w, r), AfterRound(version, w, r).rest;
    assert NextQueue(version, q, r).tasks == left;
    k, other' := FrontSplit(mine, other, ArrivedIn(version, w, r), absorbed, left);
    forall i | 0 <= i < k
      ensures LeavesIn(version, q, r, mine[i])
    {
      assert i == 0 || mine[i] in absorbed;
    }
  }

  lemma FrontSplit(mine: seq<Task>, other: seq<Task>, arrived: seq<Task>, absorbed: seq<Task>, left: seq<Task>)
    returns (k: nat, other': seq<Task>)
    requires mine != [] && (mine[1..] + other) + arrived == absorbed + left
    ensures 1 <= k <= |mine| && left == mine[k..] + other'
    ensures forall i :: 0 < i < k ==> mine[i] in absorbed
  {
    var all := (mine[1..] + other) + arrived;
    k := if 1 + |absorbed| <= |mine| then 1 + |absorbed| else |mine|;
    forall i | 0 < i < k
      ensures mine[i] in absorbed
    {
      assert all[i - 1] == mine[i] && (absorbed + left)[i - 1] == absorbed[i - 1];
    }
    if k < |mine| {
      other' := other + arrived;
      assert left == all[|absorbed|..] == mine[k..] + other';
    } else {
      other' := left;
      assert mine[k..] == [] && [] + left == left;
    }
  }

  /** Synchronization tasks in front of a queue unlock their monitors in as many rounds as there are tasks or
      fewer: if they have no group, or if the hook does not fail in these rounds. */
  lemma {:induction false} FrontIsUnlocked(version: string, q: Queue, rounds: seq<Round>, mine: seq<Task>, other: seq<Task>,
                                           t: Task, id: string)
    requires q.tasks == mine + other && |rounds| >= |mine| && CanWorkOff(version, q, rounds)
    requires forall i :: 0 <= i < |mine| ==> IsSyncTask(mine[i])
    requires (forall i :: 0 <= i < |mine| ==> IsUngrouped(mine[i]))
             || (forall i :: 0 <= i < |mine| ==> NoFailure(rounds[i]))
    requires t in mine && IsSyncTask(t) && id in t.metadata.value.monitorIDs
    ensures id in WorkedOff(version, q, rounds).unlocked
    decreases |rounds|
  {
    var r := rounds[0];
    assert q.tasks[0] == mine[0] && NoFailure(r) == NoFailure(rounds[0]);
    AloneUnlocks(version, q, r);
    var k, other' := FrontAfterRound(version, q, r, mine, other);
    var q1 := NextQueue(version, q, r);
    var j :| 0 <= j < |mine| && mine[j] == t;
    if j < k {
      RoundUnlocksLeaving(version, q, r, t, id);
      UnlockedStays(version, q1, rounds[1..]);
    } else {
      assert mine[k..][j - k] == t;
      FrontIsUnlocked(version, q1, rounds[1..], mine[k..], other', t, id);
    }
  }

  /** From end to end, judged by what a caller knows: after a successful Enable of a hook whose bindings have no
      group, or whose runs do not fail, every monitor of the hook is unlocked after as many rounds as it has
      bindings. Runs of ungrouped bindings may fail any number of times. */
  lemma CalmHookIsUnlocked(version: string, bs: KB.Bindings, w: KB.World, fails: set<nat>, ids: seq<string>, hookName: string,
                           tasks: seq<Task>, rest: seq<Task>, unlocked: seq<string>, rounds: seq<Round>)
    requires KB.Inv(bs, w) && KB.DistinctIds(bs) && |ids| == |bs|
    requires TasksOf(KB.EnabledAll(w, bs, fails), ids, hookName, tasks)
    requires CanWorkOff(version, Queue(tasks + rest, unlocked), rounds) && |rounds| >= |bs|
    requires (forall i :: 0 <= i < |bs| ==> bs[i].group == "") || (forall i :: 0 <= i < |bs| ==> NoFailure(rounds[i]))
    ensures
      var end := WorkedOff(version, Queue(tasks + rest, unlocked), rounds);
      forall i :: 0 <= i < |bs| ==>
        bs[i].monitorId in KB.EnabledAll(w, bs, fails).world.monitors && bs[i].monitorId in end.unlocked
  {
    var q := Queue(tasks + rest, unlocked);
    TasksAreForBindings(bs, w, fails, ids, hookName, tasks);
    forall i | 0 <= i < |bs|
      ensures bs[i].monitorId in WorkedOff(version, q, rounds).unlocked
    {
      assert IsSyncTaskFor(tasks[i], bs[i]) && tasks[i] in tasks;
      FrontIsUnlocked(version, q, rounds, tasks, rest, tasks[i], bs[i].monitorId);
    }
  }
}
