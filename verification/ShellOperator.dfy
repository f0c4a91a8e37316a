/** `taskHandleHookRun` of pkg/shell-operator/operator.go: running a hook, over any number of attempts,
    and unlocking the monitors of a Synchronization once it succeeded. */
module ShellOperator {
  import opened Common
  import opened HookConfigV1
  import opened HookController
  import opened CombineBindingContext

  datatype Status = Success | Fail | Repeat

  /** What one attempt meets: tasks that were appended to the queue since the last attempt and between
      the scan and the deletion of this one, whether the wait for the rate limit is interrupted, and
      whether the hook fails. */
  datatype Attempt = Attempt(arrived: seq<Task>, late: seq<Task>, interrupted: bool, hookFails: bool)

  /** The task at the head of the queue, the tasks behind it, and the monitor IDs that
      UnlockKubernetesEventsFor was called with. */
  datatype World = World(head: Task, rest: seq<Task>, unlocked: seq<string>)

  /** HookMetadata.IsSynchronization */
  predicate IsSynchronization(meta: HookMetadata) {
    |meta.bindingContext| > 0 && meta.bindingContext[0].IsSynchronization()
  }

  /** Hooks with a v0 config, and bindings that opt out, have no run for a Synchronization. */
  predicate ShouldRunHook(version: string, meta: HookMetadata) {
    IsSynchronization(meta) ==> version != "v0" && meta.executeOnSynchronization
  }

  /** Synchronizations without a group are not combined. */
  predicate ShouldCombine(version: string, meta: HookMetadata)
    requires HasFirstContext(version, meta)
  {
    && ShouldRunHook(version, meta) && version == "v1"
    && !(meta.bindingType == OnKubernetesEvent && meta.bindingContext[0].kubeEventType == Synchronization && meta.group == "")
  }

  /** For a kubernetes binding the source takes the first binding context without a check. */
  predicate HasFirstContext(version: string, meta: HookMetadata) {
    version == "v1" && meta.bindingType == OnKubernetesEvent ==> meta.bindingContext != []
  }

  predicate CanHandle(version: string, w: World) {
    w.head.metadata.Some? && HasFirstContext(version, w.head.metadata.value)
  }

  /** The tasks an attempt absorbs. */
  function AbsorbedBy(version: string, w: World, a: Attempt): seq<Task>
    requires CanHandle(version, w)
  {
    if a.interrupted || !ShouldCombine(version, w.head.metadata.value) then []
    else Absorbed(w.head, w.rest + a.arrived)
  }

  /** The metadata after a combination. */
  function CombinedMetadata(t: Task, absorbed: seq<Task>): HookMetadata
    requires t.metadata.Some?
  {
    var meta := t.metadata.value;
    match Combination(t, absorbed)
    case None => meta
    case Some(r) =>
      meta.(bindingContext := r.bindingContexts,
            monitorIDs := if |r.monitorIDs| > 0 then r.monitorIDs else meta.monitorIDs)
  }

  function MetadataAfter(version: string, w: World, a: Attempt): HookMetadata
    requires CanHandle(version, w)
  {
    CombinedMetadata(w.head, AbsorbedBy(version, w, a))
  }

  function StatusOf(version: string, w: World, a: Attempt): Status
    requires CanHandle(version, w)
  {
    var meta := w.head.metadata.value;
    if a.interrupted then Repeat
    else if ShouldRunHook(version, meta) && a.hookFails && !meta.allowFailure then Fail
    else Success
  }

  function After(version: string, w: World, a: Attempt): (r: World)
    requires CanHandle(version, w)
  {
    var meta := MetadataAfter(version, w, a);
    var n := |AbsorbedBy(version, w, a)|;
    var queue := w.rest + a.arrived;
    World(w.head.(metadata := Some(meta)),
          if 0 < n <= |queue| then queue[n..] + a.late else queue,
          if StatusOf(version, w, a) == Success && IsSynchronization(w.head.metadata.value)
          then w.unlocked + meta.monitorIDs else w.unlocked)
  }

  /** Everything appended to the queue that an attempt can see afterwards. */
  function ArrivedBy(version: string, w: World, a: Attempt): seq<Task>
    requires CanHandle(version, w)
  {
    if AbsorbedBy(version, w, a) == [] then a.arrived else a.arrived + a.late
  }

  // ---------------------------------------------------------------------
  // One attempt

  lemma ContextsSnoc(ts: seq<Task>, t: Task)
    ensures ContextsOf(ts + [t]) == ContextsOf(ts) + ContextsOf([t])
    ensures MonitorIDsOf(ts + [t]) == MonitorIDsOf(ts) + MonitorIDsOf([t])
  {
    var all := ts + [t];
    assert all[..|ts|] == ts && all[|ts|] == t;
    assert [t][..0] == [] && ContextsOf([]) == [] && MonitorIDsOf([]) == [];
  }

  lemma {:induction false} ContextsAppend(a: seq<Task>, b: seq<Task>)
    ensures ContextsOf(a + b) == ContextsOf(a) + ContextsOf(b)
    decreases |b|
  {
    if b == [] {
      assert a + b == a;
    } else {
      var init, last := b[..|b| - 1], b[|b| - 1];
      assert b == init + [last];
      AppendAssociates(a, init, [last]);
      ContextsAppend(a, init);
      ContextsSnoc(a + init, last);
      ContextsSnoc(init, last);
      AppendAssociates(ContextsOf(a), ContextsOf(init), ContextsOf([last]));
    }
  }

  lemma {:induction false} MonitorIDsAppend(a: seq<Task>, b: seq<Task>)
    ensures MonitorIDsOf(a + b) == MonitorIDsOf(a) + MonitorIDsOf(b)
    decreases |b|
  {
    if b == [] {
      assert a + b == a;
    } else {
      var init, last := b[..|b| - 1], b[|b| - 1];
      assert b == init + [last];
      AppendAssociates(a, init, [last]);
      MonitorIDsAppend(a, init);
      ContextsSnoc(a + init, last);
      ContextsSnoc(init, last);
      AppendAssociates(MonitorIDsOf(a), MonitorIDsOf(init), MonitorIDsOf([last]));
    }
  }

  lemma {:induction false} AbsorbedIsPrefix(t: Task, queue: seq<Task>)
    requires forall k :: k in queue ==> k.id != t.id
    ensures Absorbed(t, queue) <= queue
  {
    if queue != [] {
      assert queue[0] in queue;
      AbsorbedIsPrefix(t, queue[1..]);
    }
  }

  /** One attempt: the absorbed tasks are exactly those that leave the queue, in order; the task takes
      over their contexts, compacted, and their monitor IDs. */
  lemma AttemptAbsorbs(version: string, w: World, a: Attempt)
    requires CanHandle(version, w) && IsCompact(w.head.metadata.value.bindingContext)
    requires forall k :: k in w.rest + a.arrived ==> k.id != w.head.id
    ensures
      var absorbed, w1 := AbsorbedBy(version, w, a), After(version, w, a);
      var meta, meta1 := w.head.metadata.value, w1.head.metadata.value;
      && w1.head == w.head.(metadata := Some(meta1))
      && meta1 == meta.(bindingContext := meta1.bindingContext, monitorIDs := meta1.monitorIDs)
      && w.rest + (if absorbed == [] then a.arrived else a.arrived + a.late) == absorbed + w1.rest
      && meta1.bindingContext == Compacted(meta.bindingContext + ContextsOf(absorbed))
      && meta1.monitorIDs == meta.monitorIDs + MonitorIDsOf(absorbed)
      && CanHandle(version, w1) && IsCompact(meta1.bindingContext)
  {
    AttemptTakes(version, w, a);
    MetadataIsCombined(w.head, AbsorbedBy(version, w, a));
  }

  lemma AttemptTakes(version: string, w: World, a: Attempt)
    requires CanHandle(version, w) && forall k :: k in w.rest + a.arrived ==> k.id != w.head.id
    ensures w.rest + ArrivedBy(version, w, a) == AbsorbedBy(version, w, a) + After(version, w, a).rest
  {
    var absorbed := AbsorbedBy(version, w, a);
    var queue := w.rest + a.arrived;
    if absorbed == [] {
      assert [] + queue == queue;
    } else {
      AbsorbedIsPrefix(w.head, queue);
      assert queue + a.late == absorbed + (queue[|absorbed|..] + a.late);
      assert w.rest + (a.arrived + a.late) == queue + a.late;
    }
  }

  lemma MetadataIsCombined(t: Task, absorbed: seq<Task>)
    requires t.metadata.Some? && IsCompact(t.metadata.value.bindingContext)
    ensures
      var meta, meta1 := t.metadata.value, CombinedMetadata(t, absorbed);
      && meta1 == meta.(bindingContext := meta1.bindingContext, monitorIDs := meta1.monitorIDs)
      && meta1.bindingContext == Compacted(meta.bindingContext + ContextsOf(absorbed))
      && meta1.monitorIDs == meta.monitorIDs + MonitorIDsOf(absorbed)
      && (meta.bindingContext != [] ==> meta1.bindingContext != []) && IsCompact(meta1.bindingContext)
  {
    var meta := t.metadata.value;
    CompactionNormalForm(meta.bindingContext);
    if absorbed == [] {
      assert meta.bindingContext + [] == meta.bindingContext && meta.monitorIDs + [] == meta.monitorIDs;
    } else {
      if meta.bindingContext != [] {
        CompactedHead(meta.bindingContext + ContextsOf(absorbed));
      }
      CompactedIsCompact(meta.bindingContext + ContextsOf(absorbed));
    }
  }

  // ---------------------------------------------------------------------
  // Any number of failed attempts, then a success

  /** The task ids of everything that is or comes into the queue differ from the current one's. */
  predicate ForeignIds(w: World, attempts: seq<Attempt>) {
    && (forall k :: k in w.rest ==> k.id != w.head.id)
    && forall i :: 0 <= i < |attempts| ==> forall k :: k in attempts[i].arrived + attempts[i].late ==> k.id != w.head.id
  }

  /** None of the attempts succeeds. */
  predicate AllUnsuccessful(version: string, w: World, attempts: seq<Attempt>)
    requires CanHandle(version, w) && IsCompact(w.head.metadata.value.bindingContext) && ForeignIds(w, attempts)
    decreases |attempts|
  {
    attempts == [] ||
    ( && StatusOf(version, w, attempts[0]) != Success
      && (NextIsFine(version, w, attempts);
          AllUnsuccessful(version, After(version, w, attempts[0]), attempts[1..])))
  }

  lemma NextIsFine(version: string, w: World, attempts: seq<Attempt>)
    requires CanHandle(version, w) && IsCompact(w.head.metadata.value.bindingContext) && ForeignIds(w, attempts) && attempts != []
    ensures
      var w1 := After(version, w, attempts[0]);
      CanHandle(version, w1) && IsCompact(w1.head.metadata.value.bindingContext) && ForeignIds(w1, attempts[1..])
  {
    var a := attempts[0];
    forall k | k in w.rest + a.arrived
      ensures k.id != w.head.id
    {
      assert k in a.arrived ==> k in a.arrived + a.late;
    }
    AttemptAbsorbs(version, w, a);
    var w1 := After(version, w, a);
    forall k | k in w1.rest
      ensures k.id != w1.head.id
    {
      assert k in AbsorbedBy(version, w, a) + w1.rest;
      assert k in w.rest || k in a.arrived + a.late;
    }
    assert forall i :: 0 <= i < |attempts[1..]| ==> attempts[1..][i] == attempts[i + 1];
  }

  function AfterAll(version: string, w: World, attempts: seq<Attempt>): (r: World)
    requires CanHandle(version, w) && IsCompact(w.head.metadata.value.bindingContext) && ForeignIds(w, attempts)
    ensures CanHandle(version, r) && IsCompact(r.head.metadata.value.bindingContext) && ForeignIds(r, [])
    decreases |attempts|
  {
    if attempts == [] then w
    else NextIsFine(version, w, attempts); AfterAll(version, After(version, w, attempts[0]), attempts[1..])
  }

  function AbsorbedByAll(version: string, w: World, attempts: seq<Attempt>): seq<Task>
    requires CanHandle(version, w) && IsCompact(w.head.metadata.value.bindingContext) && ForeignIds(w, attempts)
    decreases |attempts|
  {
    if attempts == [] then []
    else
      NextIsFine(version, w, attempts);
      AbsorbedBy(version, w, attempts[0]) + AbsorbedByAll(version, After(version, w, attempts[0]), attempts[1..])
  }

  function ArrivedByAll(version: string, w: World, attempts: seq<Attempt>): seq<Task>
    requires CanHandle(version, w) && IsCompact(w.head.metadata.value.bindingContext) && ForeignIds(w, attempts)
    decreases |attempts|
  {
    if attempts == [] then []
    else
      NextIsFine(version, w, attempts);
      ArrivedBy(version, w, attempts[0]) + ArrivedByAll(version, After(version, w, attempts[0]), attempts[1..])
  }

  lemma TwoAbsorptions(cs: seq<BindingContext>, a: seq<Task>, b: seq<Task>)
    ensures Compacted(Compacted(cs + ContextsOf(a)) + ContextsOf(b)) == Compacted(cs + ContextsOf(a + b))
  {
    ContextsAppend(a, b);
    TwoCompactions(cs, ContextsOf(a), ContextsOf(b));
  }

  lemma TwoCompactions(cs: seq<BindingContext>, ca: seq<BindingContext>, cb: seq<BindingContext>)
    ensures Compacted(Compacted(cs + ca) + cb) == Compacted(cs + (ca + cb))
  {
    CompactInSteps(cs + ca, cb);
    assert (cs + ca) + cb == cs + (ca + cb);
  }

  lemma TwoAbsorptionsOfIDs(ids: seq<string>, a: seq<Task>, b: seq<Task>)
    ensures ids + MonitorIDsOf(a) + MonitorIDsOf(b) == ids + MonitorIDsOf(a + b)
  {
    MonitorIDsAppend(a, b);
    var ma, mb := MonitorIDsOf(a), MonitorIDsOf(b);
    assert (ids + ma) + mb == ids + (ma + mb);
  }

  lemma FirstAttempt(version: string, w: World, attempts: seq<Attempt>)
    requires CanHandle(version, w) && IsCompact(w.head.metadata.value.bindingContext) && ForeignIds(w, attempts) && attempts != []
    ensures
      var absorbed, w1 := AbsorbedBy(version, w, attempts[0]), After(version, w, attempts[0]);
      var meta, meta1 := w.head.metadata.value, w1.head.metadata.value;
      && w.rest + ArrivedBy(version, w, attempts[0]) == absorbed + w1.rest
      && meta1.bindingContext == Compacted(meta.bindingContext + ContextsOf(absorbed))
      && meta1.monitorIDs == meta.monitorIDs + MonitorIDsOf(absorbed)
  {
    assert forall k :: k in w.rest + attempts[0].arrived ==> k in w.rest || k in attempts[0].arrived + attempts[0].late;
    AttemptAbsorbs(version, w, attempts[0]);
  }

  /** Over any number of attempts the task collects the contexts of everything it absorbed, compacted as
      if combined at once, and all the monitor IDs. */
  lemma {:induction false} AttemptsCollect(version: string, w: World, attempts: seq<Attempt>)
    requires CanHandle(version, w) && IsCompact(w.head.metadata.value.bindingContext) && ForeignIds(w, attempts)
    ensures
      var absorbed := AbsorbedByAll(version, w, attempts);
      var meta, meta1 := w.head.metadata.value, AfterAll(version, w, attempts).head.metadata.value;
      && meta1.bindingContext == Compacted(meta.bindingContext + ContextsOf(absorbed))
      && meta1.monitorIDs == meta.monitorIDs + MonitorIDsOf(absorbed)
    decreases |attempts|
  {
    var meta := w.head.metadata.value;
    if attempts == [] {
      CompactionNormalForm(meta.bindingContext);
      assert meta.bindingContext + [] == meta.bindingContext;
    } else {
      NextIsFine(version, w, attempts);
      FirstAttempt(version, w, attempts);
      var w1 := After(version, w, attempts[0]);
      AttemptsCollect(version, w1, attempts[1..]);
      var a, b := AbsorbedBy(version, w, attempts[0]), AbsorbedByAll(version, w1, attempts[1..]);
      TwoAbsorptions(meta.bindingContext, a, b);
      TwoAbsorptionsOfIDs(meta.monitorIDs, a, b);
    }
  }

  /** No task is lost over any number of attempts: what was in the queue or came into it was absorbed or
      is still there, in order. */
  lemma {:induction false} TasksAreConserved(version: string, w: World, attempts: seq<Attempt>)
    requires CanHandle(version, w) && IsCompact(w.head.metadata.value.bindingContext) && ForeignIds(w, attempts)
    ensures w.rest + ArrivedByAll(version, w, attempts)
         == AbsorbedByAll(version, w, attempts) + AfterAll(version, w, attempts).rest
    decreases |attempts|
  {
    if attempts != [] {
      NextIsFine(version, w, attempts);
      FirstAttempt(version, w, attempts);
      var w1 := After(version, w, attempts[0]);
      TasksAreConserved(version, w1, attempts[1..]);
      Regroup(w.rest, ArrivedBy(version, w, attempts[0]), ArrivedByAll(version, w1, attempts[1..]),
              AbsorbedBy(version, w, attempts[0]), w1.rest,
              AbsorbedByAll(version, w1, attempts[1..]), AfterAll(version, w1, attempts[1..]).rest);
    }
  }

  /** Nothing is unlocked while the hook has not succeeded. */
  lemma {:induction false} NoUnlockBeforeSuccess(version: string, w: World, attempts: seq<Attempt>)
    requires CanHandle(version, w) && IsCompact(w.head.metadata.value.bindingContext) && ForeignIds(w, attempts)
    requires AllUnsuccessful(version, w, attempts)
    ensures AfterAll(version, w, attempts).unlocked == w.unlocked
    decreases |attempts|
  {
    if attempts != [] {
      NextIsFine(version, w, attempts);
      NoUnlockBeforeSuccess(version, After(version, w, attempts[0]), attempts[1..]);
    }
  }

  /** The context that stands for the first run of one group. */
  function Front(cs: seq<BindingContext>): BindingContext
    requires cs != []
  {
    cs[EndOfRun(cs, 0)]
  }

  predicate BeginsWithSynchronization(cs: seq<BindingContext>) {
    cs != [] && Front(cs).IsSynchronization()
  }

  /** When an attempt succeeds at last, exactly: every monitor ID of the task and of all tasks it ever
      absorbed is unlocked if the first run of the contexts collected by the failed attempts ends in a
      Synchronization; otherwise none is. */
  lemma UnlockedOnSuccess(version: string, w: World, attempts: seq<Attempt>, last: Attempt)
    requires CanHandle(version, w) && IsCompact(w.head.metadata.value.bindingContext) && ForeignIds(w, attempts + [last])
    requires ForeignIds(w, attempts) && AllUnsuccessful(version, w, attempts)
    requires StatusOf(version, AfterAll(version, w, attempts), last) == Success
    ensures
      var meta := w.head.metadata.value;
      var collected := meta.bindingContext + ContextsOf(AbsorbedByAll(version, w, attempts));
      var w1 := AfterAll(version, w, attempts);
      var absorbed := AbsorbedByAll(version, w, attempts) + AbsorbedBy(version, w1, last);
      After(version, w1, last).unlocked
        == if BeginsWithSynchronization(collected)
           then w.unlocked + (meta.monitorIDs + MonitorIDsOf(absorbed))
           else w.unlocked
  {
    var meta := w.head.metadata.value;
    var before := AbsorbedByAll(version, w, attempts);
    var collected := meta.bindingContext + ContextsOf(before);
    var w1 := AfterAll(version, w, attempts);
    NoUnlockBeforeSuccess(version, w, attempts);
    AttemptsCollect(version, w, attempts);
    if collected != [] {
      RepresentedByEndOfRun(collected, 0);
      assert Position(collected, 0) == 0;
    }
    assert IsSynchronization(w1.head.metadata.value) <==> BeginsWithSynchronization(collected);
    LastAttemptIsFine(version, w, attempts, last);
    AttemptAbsorbs(version, w1, last);
    TwoAbsorptionsOfIDs(meta.monitorIDs, before, AbsorbedBy(version, w1, last));
  }

  lemma {:induction false} LastAttemptIsFine(version: string, w: World, attempts: seq<Attempt>, last: Attempt)
    requires CanHandle(version, w) && IsCompact(w.head.metadata.value.bindingContext) && ForeignIds(w, attempts + [last])
    requires ForeignIds(w, attempts)
    ensures
      var w1 := AfterAll(version, w, attempts);
      forall k :: k in w1.rest + last.arrived ==> k.id != w1.head.id
    decreases |attempts|
  {
    if attempts == [] {
      assert (attempts + [last])[0] == last;
      assert forall k :: k in last.arrived ==> k in last.arrived + last.late;
    } else {
      NextIsFine(version, w, attempts);
      NextIsFine(version, w, attempts + [last]);
      assert (attempts + [last])[0] == attempts[0] && (attempts + [last])[1..] == attempts[1..] + [last];
      LastAttemptIsFine(version, After(version, w, attempts[0]), attempts[1..], last);
    }
  }

  // ---------------------------------------------------------------------
  // What an attempt does, judged by the task as it was queued and by what the attempts before it absorbed

  /** Attempts change nothing of the task but its contexts and monitor IDs. */
  lemma {:induction false} AttemptsKeepTask(version: string, w: World, attempts: seq<Attempt>)
    requires CanHandle(version, w) && IsCompact(w.head.metadata.value.bindingContext) && ForeignIds(w, attempts)
    ensures
      var h := AfterAll(version, w, attempts).head;
      var meta, meta1 := w.head.metadata.value, h.metadata.value;
      && h == w.head.(metadata := Some(meta1))
      && meta1 == meta.(bindingContext := meta1.bindingContext, monitorIDs := meta1.monitorIDs)
    decreases |attempts|
  {
    if attempts != [] {
      NextIsFine(version, w, attempts);
      forall k | k in w.rest + attempts[0].arrived
        ensures k.id != w.head.id
      {
        assert k in attempts[0].arrived ==> k in attempts[0].arrived + attempts[0].late;
      }
      AttemptAbsorbs(version, w, attempts[0]);
      AttemptsKeepTask(version, After(version, w, attempts[0]), attempts[1..]);
    }
  }

  lemma FrontOfAttempts(version: string, w: World, attempts: seq<Attempt>)
    requires CanHandle(version, w) && IsCompact(w.head.metadata.value.bindingContext) && ForeignIds(w, attempts)
    ensures
      var collected := w.head.metadata.value.bindingContext + ContextsOf(AbsorbedByAll(version, w, attempts));
      var contexts := AfterAll(version, w, attempts).head.metadata.value.bindingContext;
      (contexts == [] <==> collected == []) && (collected != [] ==> contexts[0] == Front(collected))
  {
    var collected := w.head.metadata.value.bindingContext + ContextsOf(AbsorbedByAll(version, w, attempts));
    AttemptsCollect(version, w, attempts);
    if collected != [] {
      RepresentedByEndOfRun(collected, 0);
    }
  }

  /** The next attempt is repeated if and only if it is interrupted. Otherwise it fails if and only if the hook does
      and its failure is not allowed, unless the hook is not even run: for a Synchronization at the front of a v0
      hook, or of a binding that opted out. */
  lemma StatusExactly(version: string, w: World, attempts: seq<Attempt>, a: Attempt)
    requires CanHandle(version, w) && IsCompact(w.head.metadata.value.bindingContext) && ForeignIds(w, attempts)
    ensures
      var meta := w.head.metadata.value;
      var collected := meta.bindingContext + ContextsOf(AbsorbedByAll(version, w, attempts));
      var sync := collected != [] && Front(collected).bindingType == OnKubernetesEvent && Front(collected).kubeEventType == Synchronization;
      var status := StatusOf(version, AfterAll(version, w, attempts), a);
      && (status == Repeat <==> a.interrupted)
      && (status == Fail <==> !a.interrupted && a.hookFails && !meta.allowFailure
                              && !(sync && (version == "v0" || !meta.executeOnSynchronization)))
  {
    FrontOfAttempts(version, w, attempts);
    AttemptsKeepTask(version, w, attempts);
  }

  /** The next attempt absorbs nothing if it is interrupted, if the config is not v1, if the Synchronization at the
      front is not run, or has no group. Otherwise it absorbs exactly the longest run of tasks at the head of the
      queue that have metadata, the hook and the type of the task. */
  lemma AbsorbsExactly(version: string, w: World, attempts: seq<Attempt>, a: Attempt, i: nat)
    requires CanHandle(version, w) && IsCompact(w.head.metadata.value.bindingContext)
    requires ForeignIds(w, attempts + [a]) && ForeignIds(w, attempts)
    ensures
      var meta := w.head.metadata.value;
      var collected := meta.bindingContext + ContextsOf(AbsorbedByAll(version, w, attempts));
      var sync := collected != [] && Front(collected).bindingType == OnKubernetesEvent && Front(collected).kubeEventType == Synchronization;
      var w1 := AfterAll(version, w, attempts);
      var queue, n := w1.rest + a.arrived, |AbsorbedBy(version, w1, a)|;
      && AbsorbedBy(version, w1, a) <= queue
      && if || a.interrupted || version != "v1" || (sync && !meta.executeOnSynchronization)
            || (meta.bindingType == OnKubernetesEvent && meta.group == "" && Front(collected).kubeEventType == Synchronization)
         then n == 0
         else i <= n && i < |queue| ==>
                (i < n <==> queue[i].metadata.Some? && queue[i].metadata.value.hookName == meta.hookName
                            && queue[i].taskType == w.head.taskType)
  {
    var w1 := AfterAll(version, w, attempts);
    var queue := w1.rest + a.arrived;
    FrontOfAttempts(version, w, attempts);
    AttemptsKeepTask(version, w, attempts);
    LastAttemptIsFine(version, w, attempts, a);
    AbsorbedIsPrefix(w1.head, queue);
    if AbsorbedBy(version, w1, a) == Absorbed(w1.head, queue) && i <= |Absorbed(w1.head, queue)| && i < |queue| {
      NoneIsCurrent(w1.head, queue);
      NilStopIsPrivateVersion(w1.head, queue);
      AbsorbedIsLongestRun(w1.head, queue, None, i);
    }
  }

  /** No run of attempts takes the task of another hook, or of another type. */
  lemma {:induction false} AbsorbedAreOfTheHook(version: string, w: World, attempts: seq<Attempt>, k: Task)
    requires CanHandle(version, w) && IsCompact(w.head.metadata.value.bindingContext) && ForeignIds(w, attempts)
    requires k in AbsorbedByAll(version, w, attempts)
    ensures k.metadata.Some? && k.metadata.value.hookName == w.head.metadata.value.hookName && k.taskType == w.head.taskType
    decreases |attempts|
  {
    NextIsFine(version, w, attempts);
    var w1 := After(version, w, attempts[0]);
    if k in AbsorbedBy(version, w, attempts[0]) {
      var queue := w.rest + attempts[0].arrived;
      var i :| 0 <= i < |Absorbed(w.head, queue)| && Absorbed(w.head, queue)[i] == k;
      NilStopIsPrivateVersion(w.head, queue);
      AbsorbedArePrefix(w.head, queue, None);
      AbsorbedIsLongestRun(w.head, queue, None, i);
    } else {
      AttemptsKeepTask(version, w, attempts[..1]);
      assert attempts[..1][0] == attempts[0] && attempts[..1][1..] == [];
      AbsorbedAreOfTheHook(version, w1, attempts[1..], k);
    }
  }

  predicate AllSynchronizations(cs: seq<BindingContext>) {
    forall i :: 0 <= i < |cs| ==> cs[i].IsSynchronization()
  }

  /** No monitor is left locked when a Synchronization task absorbs Synchronizations only. */
  lemma NoMonitorLeftLocked(version: string, w: World, attempts: seq<Attempt>, last: Attempt)
    requires CanHandle(version, w) && IsCompact(w.head.metadata.value.bindingContext) && ForeignIds(w, attempts + [last])
    requires ForeignIds(w, attempts) && AllUnsuccessful(version, w, attempts)
    requires StatusOf(version, AfterAll(version, w, attempts), last) == Success
    requires w.head.metadata.value.bindingContext != [] && AllSynchronizations(w.head.metadata.value.bindingContext)
    requires AllSynchronizations(ContextsOf(AbsorbedByAll(version, w, attempts)))
    ensures
      var w1 := AfterAll(version, w, attempts);
      var absorbed := AbsorbedByAll(version, w, attempts) + AbsorbedBy(version, w1, last);
      forall id :: id in w.head.metadata.value.monitorIDs || id in MonitorIDsOf(absorbed) ==> id in After(version, w1, last).unlocked
  {
    UnlockedOnSuccess(version, w, attempts, last);
  }

  /** The hypothesis is needed. A grouped Synchronization is followed by an Event of its group; the hook fails
      once. The compaction keeps the Event only, the retry is no Synchronization any more, and its
      success unlocks nothing. */
  lemma RetryCanForgetUnlock(sync: BindingContext, event: BindingContext, id: string)
    requires sync.IsSynchronization() && !event.IsSynchronization() && sync.group == event.group == "g"
    ensures
      var meta := HookMetadata("hook", "g", OnKubernetesEvent, [sync], false, [id], true);
      var w := World(Task("1", "HookRun", Some(meta)),
                     [Task("2", "HookRun", Some(meta.(bindingContext := [event], monitorIDs := [])))], []);
      var first, second := Attempt([], [], false, true), Attempt([], [], false, false);
      && CanHandle("v1", w) && StatusOf("v1", w, first) == Fail
      && var w1 := After("v1", w, first);
      && CanHandle("v1", w1) && w1.rest == [] && w1.head.metadata.value.monitorIDs == [id]
      && StatusOf("v1", w1, second) == Success
      && After("v1", w1, second).unlocked == []
  {
    var meta := HookMetadata("hook", "g", OnKubernetesEvent, [sync], false, [id], true);
    var other := Task("2", "HookRun", Some(meta.(bindingContext := [event], monitorIDs := [])));
    var w := World(Task("1", "HookRun", Some(meta)), [other], []);
    var first := Attempt([], [], false, true);
    assert w.rest + first.arrived == [other] && [other][1..] == [] && [other][..0] == [];
    assert Absorbed(w.head, [other]) == [other];
    assert ContextsOf([other]) == [event] && MonitorIDsOf([other]) == [];
    assert [sync] + [event] == [sync, event] && [sync, event][1..] == [event] && [event][1..] == [];
    assert Compacted([event]) == [event] + Compacted([]);
    assert Compacted([sync, event]) == [event];
    assert [id] + [] == [id];
    var w1 := After("v1", w, first);
    assert w1.head.metadata.value.bindingContext == [event];
  }

  // ---------------------------------------------------------------------
  // The handler itself

  class ShellOperator {
    /** The config version of the hook: "v0" or "v1". */
    const version: string
    const queue: TaskQueue
    /** The monitor IDs UnlockKubernetesEventsFor was called with. */
    var unlocked: seq<string>

    constructor (version: string, queue: TaskQueue)
      ensures this.version == version && this.queue == queue && unlocked == []
    {
      this.version, this.queue, unlocked := version, queue, [];
    }

    ghost function State(): World
      reads this, queue
      requires queue.items != []
    {
      World(queue.items[0], queue.items[1..], unlocked)
    }

    method UnlockKubernetesEventsForAll(monitorIDs: seq<string>)
      modifies `unlocked
      ensures unlocked == old(unlocked) + monitorIDs
    {
      for i := 0 to |monitorIDs|
        invariant unlocked == old(unlocked) + monitorIDs[..i]
      {
        unlocked := unlocked + [monitorIDs[i]];
      }
    }

    /** Combine the tasks behind `t` into it and update its metadata. */
    method CombineIntoTask(t: Task, late: seq<Task>) returns (hookMeta: HookMetadata)
      requires queue.items != [] && queue.items[0] == t && t.metadata.Some? && DistinctIds(queue.items + late)
      modifies queue
      ensures
        var absorbed, rest := Absorbed(t, old(queue.items[1..])), old(queue.items[1..]);
        && hookMeta == CombinedMetadata(t, absorbed)
        && absorbed <= rest
        && queue.items == [t.(metadata := Some(hookMeta))]
                          + (if absorbed == [] then rest else rest[|absorbed|..] + late)
    {
      ghost var items := queue.items;
      TasksBehindHead(t, items, late);
      assert items == [t] + items[1..];
      var combineResult := CombineBindingContextForHookPrivate(queue, queue, t, late);
      hookMeta := t.metadata.value;
      if combineResult.Some? {
        hookMeta := WithResult(hookMeta, combineResult.value);
        ReplaceHead(t, queue.items[1..], t.(metadata := Some(hookMeta)));
        queue.items := queue.items[0 := t.(metadata := Some(hookMeta))];
      }
    }

    method WithResult(meta: HookMetadata, r: CombineResult) returns (hookMeta: HookMetadata)
      ensures hookMeta == meta.(bindingContext := r.bindingContexts,
                                monitorIDs := if |r.monitorIDs| > 0 then r.monitorIDs else meta.monitorIDs)
    {
      hookMeta := meta.(bindingContext := r.bindingContexts);
      if |r.monitorIDs| > 0 {
        hookMeta := hookMeta.(monitorIDs := r.monitorIDs);
      }
    }

    /** taskHandleHookRun for the task at the head of the queue. Whether the hook is still known, interruption, the
        outcome of the hook and the tasks appended meanwhile come from outside. */
    method TaskHandleHookRun(t: Task, hookFound: bool, interrupted: bool, hookFails: bool, late: seq<Task>) returns (status: Status)
      requires queue.items != [] && queue.items[0] == t && DistinctIds(queue.items + late)
      requires t.metadata.Some? ==> HasFirstContext(version, t.metadata.value)
      modifies this, queue
      ensures queue.items != []
      ensures t.metadata.None? || !hookFound ==> status == Fail && State() == old(State())
      ensures t.metadata.Some? && hookFound ==>
                var a := Attempt([], late, interrupted, hookFails);
                && status == StatusOf(version, old(State()), a)
                && State() == After(version, old(State()), a)
    {
      if t.metadata.None? || !hookFound {
        return Fail;
      }
      var hookMeta := t.metadata.value;
      ghost var rest := queue.items[1..];
      assert rest + [] == rest;
      if interrupted {
        return Repeat;
      }
      var isSynchronization := |hookMeta.bindingContext| > 0 && hookMeta.bindingContext[0].IsSynchronization();
      var shouldRunHook := true;
      if isSynchronization {
        if version == "v0" {
          shouldRunHook := false;
        }
        if !hookMeta.executeOnSynchronization {
          shouldRunHook := false;
        }
      }
      if shouldRunHook && version == "v1" {
        var shouldCombine := true;
        if hookMeta.bindingType == OnKubernetesEvent {
          if hookMeta.bindingContext[0].kubeEventType == Synchronization && hookMeta.group == "" {
            shouldCombine := false;
          }
        }
        if shouldCombine {
          hookMeta := CombineIntoTask(t, late);
        }
      }
      assert hookMeta == MetadataAfter(version, old(State()), Attempt([], late, interrupted, hookFails));
      status := Success;
      if shouldRunHook && hookFails {
        status := if hookMeta.allowFailure then Success else Fail;
      }
      if isSynchronization && status == Success {
        UnlockKubernetesEventsForAll(hookMeta.monitorIDs);
      }
    }
  }

  lemma ReplaceHead(t: Task, rest: seq<Task>, t': Task)
    ensures ([t] + rest)[0 := t'] == [t'] + rest
  {
  }
}
