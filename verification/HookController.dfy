/** pkg/hook/controller/hook_controller.go: `UpdateSnapshots` gives the binding contexts of one hook run
    fresh snapshots that agree with each other, although the objects may change between two reads. */
module HookController {
  import opened Common
  import opened HookConfigV1

  /** One object of a snapshot, as the hook sees it. */
  type KubeObject = string

  type ObjectList = seq<KubeObject>

  datatype KubeEventType = NoKubeEvent | Synchronization | Event

  /** `payload` stands for the fields that are only passed through: watch event, reviews, versions.
      A nil list of objects is None. */
  datatype BindingContext = BindingContext(
    binding: string,
    bindingType: BindingType,
    group: string,
    kubeEventType: KubeEventType,
    payload: string,
    objects: Option<ObjectList>,
    snapshots: map<string, ObjectList>)
  {
    predicate IsSynchronization() {
      bindingType == OnKubernetesEvent && kubeEventType == Synchronization
    }
  }

  /** The first binding with this name. */
  function FirstMatch(bs: seq<BindingConfig>, name: string): (r: Option<BindingConfig>)
    ensures r.Some? ==> r.value in bs && r.value.bindingName == name
    ensures r.None? <==> forall b :: b in bs ==> b.bindingName != name
  {
    if bs == [] then None
    else if bs[0].bindingName == name then Some(bs[0])
    else
      var r := FirstMatch(bs[1..], name);
      assert forall b :: b in bs <==> b == bs[0] || b in bs[1..];
      r
  }

  /** getIncludeSnapshotsFrom */
  function IncludeSnapshotsFrom(cfg: HookConfig, t: BindingType, name: string): seq<string> {
    match FirstMatch(cfg.Bindings(t), name)
    case None => []
    case Some(b) => b.includeSnapshotsFrom
  }

  type SnapshotCache = map<string, Option<ObjectList>>

  function OrEmpty(objects: Option<ObjectList>): ObjectList {
    if objects.Some? then objects.value else []
  }

  /** A snapshot for each of the names and no other, as the cache has it. */
  predicate Included(snapshots: map<string, ObjectList>, names: seq<string>, cache: SnapshotCache) {
    && (forall n :: n in names ==> n in snapshots)
    && (forall n :: n in snapshots ==> n in names)
    && forall n :: n in snapshots ==> n in cache && snapshots[n] == OrEmpty(cache[n])
  }

  predicate Extends(cache: SnapshotCache, cache': SnapshotCache) {
    forall n :: n in cache ==> n in cache' && cache'[n] == cache[n]
  }

  lemma ExtendsFurther(a: SnapshotCache, b: SnapshotCache, c: SnapshotCache)
    requires Extends(a, b) && Extends(b, c)
    ensures Extends(a, c)
  {
  }

  lemma IncludedAppend(snapshots: map<string, ObjectList>, names: seq<string>, cache: SnapshotCache, name: string, cache': SnapshotCache)
    requires Included(snapshots, names, cache) && Extends(cache, cache') && name in cache'
    ensures Included(snapshots[name := OrEmpty(cache'[name])], names + [name], cache')
  {
  }

  /** `r` is `bc` with the snapshots its binding includes, and for a Synchronization its own objects,
      all taken from one cache. */
  ghost predicate RefreshedOne(cfg: HookConfig, bc: BindingContext, r: BindingContext, cache: SnapshotCache) {
    var names := IncludeSnapshotsFrom(cfg, bc.bindingType, bc.binding);
    && r == bc.(snapshots := r.snapshots, objects := r.objects)
    && Included(r.snapshots, names, cache)
    && (if bc.IsSynchronization() then bc.binding in cache && r.objects == cache[bc.binding] else r.objects == bc.objects)
  }

  ghost predicate Refreshed(cfg: HookConfig, before: seq<BindingContext>, after: seq<BindingContext>, cache: SnapshotCache) {
    && |after| == |before|
    && forall i :: 0 <= i < |before| ==> RefreshedOne(cfg, before[i], after[i], cache)
  }

  /** Contexts refreshed together agree: two copies of the snapshot of one binding are equal, and the
      objects of a Synchronization are every copy of its own snapshot. */
  lemma RefreshedContextsAgree(cfg: HookConfig, before: seq<BindingContext>, after: seq<BindingContext>, cache: SnapshotCache)
    requires Refreshed(cfg, before, after, cache)
    ensures forall i, j, n :: 0 <= i < |after| && 0 <= j < |after| && n in after[i].snapshots && n in after[j].snapshots
              ==> after[i].snapshots[n] == after[j].snapshots[n]
    ensures forall i, j :: 0 <= i < |after| && 0 <= j < |after| && after[i].IsSynchronization() && after[i].binding in after[j].snapshots
              ==> after[j].snapshots[after[i].binding] == OrEmpty(after[i].objects)
  {
    forall i, n | 0 <= i < |after| && n in after[i].snapshots
      ensures n in cache && after[i].snapshots[n] == OrEmpty(cache[n])
    {
      assert RefreshedOne(cfg, before[i], after[i], cache);
    }
    forall i | 0 <= i < |after| && after[i].IsSynchronization()
      ensures after[i].binding in cache && after[i].objects == cache[after[i].binding]
    {
      assert RefreshedOne(cfg, before[i], after[i], cache);
    }
  }

  /** The part of the kubernetes bindings controller used here. Each call may see other objects:
      `answer` may depend on the number of calls made before. */
  class KubernetesController {
    const answer: (string, nat) -> Option<ObjectList>
    var calls: seq<string>

    constructor (answer: (string, nat) -> Option<ObjectList>)
      ensures this.answer == answer && calls == []
    {
      this.answer, calls := answer, [];
    }

    method SnapshotsFor(bindingName: string) returns (r: Option<ObjectList>)
      modifies this
      ensures r == answer(bindingName, |old(calls)|)
      ensures calls == old(calls) + [bindingName]
    {
      r := answer(bindingName, |calls|);
      calls := calls + [bindingName];
    }
  }

  /** The cache holds the answer of exactly one call for each name asked since call `start`. */
  ghost predicate CachesCalls(cache: SnapshotCache, answer: (string, nat) -> Option<ObjectList>, calls: seq<string>, start: nat) {
    && start <= |calls|
    && (forall j, k :: start <= j < k < |calls| ==> calls[j] != calls[k])
    && (forall n :: n in cache ==> n in calls[start..])
    && forall k :: start <= k < |calls| ==> calls[k] in cache && cache[calls[k]] == answer(calls[k], k)
  }

  // ---------------------------------------------------------------------
  // Snapshots, judged by the config as it was written

  predicate UniqueNames(bs: seq<BindingConfig>) {
    forall i, j :: 0 <= i < j < |bs| ==> bs[i].bindingName != bs[j].bindingName
  }

  lemma FirstMatchOfUnique(bs: seq<BindingConfig>, i: nat)
    requires UniqueNames(bs) && i < |bs|
    ensures FirstMatch(bs, bs[i].bindingName) == Some(bs[i])
  {
    assert bs[i] in bs;
    var m := FirstMatch(bs, bs[i].bindingName);
    var j :| 0 <= j < |bs| && bs[j] == m.value;
  }

  /** The names whose snapshots a binding gets: those it includes, and those of the kubernetes bindings of its group. */
  predicate Deserves(c: HookConfig, b: BindingConfig, n: string) {
    n in b.includeSnapshotsFrom || (b.group != "" && exists k :: k in c.onKubernetesEvents && k.group == b.group && k.bindingName == n)
  }

  /** Every context of this type and binding is refreshed with exactly these snapshots. */
  ghost predicate GetsSnapshots(c: HookConfig, t: BindingType, b: BindingConfig) {
    forall bc: BindingContext, r, cache :: bc.bindingType == t && bc.binding == b.bindingName && RefreshedOne(Converted(c), bc, r, cache) ==>
      forall n :: n in r.snapshots <==> Deserves(c, b, n)
  }

  lemma BindingGetsSnapshots(c: HookConfig, t: BindingType, b: BindingConfig)
    requires b in c.Bindings(t) && UniqueNames(c.Bindings(t))
    ensures GetsSnapshots(c, t, b)
  {
    var i :| 0 <= i < |c.Bindings(t)| && c.Bindings(t)[i] == b;
    GroupSharesSnapshots(c, t, i);
    ConvertedKeepsUnique(c, t);
    FirstMatchOfUnique(Converted(c).Bindings(t), i);
  }

  lemma ConvertedKeepsUnique(c: HookConfig, t: BindingType)
    requires UniqueNames(c.Bindings(t))
    ensures UniqueNames(Converted(c).Bindings(t))
  {
    var bs := Converted(c).Bindings(t);
    forall i, j | 0 <= i < j < |bs|
      ensures bs[i].bindingName != bs[j].bindingName
    {
      ConvertedKeepsName(c, t, i);
      ConvertedKeepsName(c, t, j);
    }
  }

  lemma ConvertedKeepsName(c: HookConfig, t: BindingType, i: nat)
    requires i < |Converted(c).Bindings(t)|
    ensures |Converted(c).Bindings(t)| == |c.Bindings(t)|
    ensures Converted(c).Bindings(t)[i].bindingName == c.Bindings(t)[i].bindingName
  {
    if i < |c.Bindings(t)| {
      GroupSharesSnapshots(c, t, i);
    }
  }

  /** With unique names in each list of the config, contexts of each binding get the snapshots that this binding
      deserves, and contexts of OnStartup none. */
  lemma SnapshotsFollowConfig(c: HookConfig)
    requires UniqueNames(c.onKubernetesEvents) && UniqueNames(c.schedules) && UniqueNames(c.kubernetesValidating)
    requires UniqueNames(c.kubernetesMutating) && UniqueNames(c.kubernetesConversion)
    ensures forall b :: b in c.onKubernetesEvents ==> GetsSnapshots(c, OnKubernetesEvent, b)
    ensures forall b :: b in c.schedules ==> GetsSnapshots(c, Schedule, b)
    ensures forall b :: b in c.kubernetesValidating ==> GetsSnapshots(c, KubernetesValidating, b)
    ensures forall b :: b in c.kubernetesMutating ==> GetsSnapshots(c, KubernetesMutating, b)
    ensures forall b :: b in c.kubernetesConversion ==> GetsSnapshots(c, KubernetesConversion, b)
    ensures forall bc: BindingContext, r, cache :: bc.bindingType == OnStartup && RefreshedOne(Converted(c), bc, r, cache) ==> r.snapshots == map[]
  {
    forall t: BindingType, b | b in c.Bindings(t)
      ensures UniqueNames(c.Bindings(t)) && GetsSnapshots(c, t, b)
    {
      assert UniqueNames(c.Bindings(t));
      BindingGetsSnapshots(c, t, b);
    }
    assert forall b :: b in c.onKubernetesEvents ==> b in c.Bindings(OnKubernetesEvent);
    assert forall b :: b in c.schedules ==> b in c.Bindings(Schedule);
    assert forall b :: b in c.kubernetesValidating ==> b in c.Bindings(KubernetesValidating);
    assert forall b :: b in c.kubernetesMutating ==> b in c.Bindings(KubernetesMutating);
    assert forall b :: b in c.kubernetesConversion ==> b in c.Bindings(KubernetesConversion);
    assert FirstMatch(Converted(c).Bindings(OnStartup), "") == None;
  }

  /** The objects that the only call for this name gave, none if it gave nil. */
  ghost predicate IsAnswer(answer: (string, nat) -> Option<ObjectList>, calls: seq<string>, start: nat, n: string, objects: ObjectList) {
    exists k :: start <= k < |calls| && calls[k] == n
      && match answer(n, k)
         case Some(list) => objects == list
         case None => objects == []
  }

  /** What a refresh changes of a context, and where it is from: every snapshot and the objects of a Synchronization
      are answers of calls that this refresh made. */
  lemma SnapshotsAreAnswers(cfg: HookConfig, bc: BindingContext, r: BindingContext, cache: SnapshotCache,
                            answer: (string, nat) -> Option<ObjectList>, calls: seq<string>, start: nat)
    requires RefreshedOne(cfg, bc, r, cache) && CachesCalls(cache, answer, calls, start)
    ensures r.binding == bc.binding && r.bindingType == bc.bindingType && r.group == bc.group
    ensures r.kubeEventType == bc.kubeEventType && r.payload == bc.payload
    ensures forall n :: n in r.snapshots ==> IsAnswer(answer, calls, start, n, r.snapshots[n])
    ensures
      if bc.bindingType == OnKubernetesEvent && bc.kubeEventType == Synchronization
      then IsAnswer(answer, calls, start, bc.binding, match r.objects case Some(list) => list case None => [])
      else r.objects == bc.objects
  {
    forall n | n in r.snapshots
      ensures IsAnswer(answer, calls, start, n, r.snapshots[n])
    {
      CachedIsAnswer(cache, answer, calls, start, n);
    }
    if bc.IsSynchronization() {
      CachedIsAnswer(cache, answer, calls, start, bc.binding);
    }
  }

  lemma CachedIsAnswer(cache: SnapshotCache, answer: (string, nat) -> Option<ObjectList>, calls: seq<string>, start: nat, n: string)
    requires CachesCalls(cache, answer, calls, start) && n in cache
    ensures IsAnswer(answer, calls, start, n, OrEmpty(cache[n]))
  {
    var i :| 0 <= i < |calls[start..]| && calls[start..][i] == n;
    assert calls[start + i] == n;
  }

  class HookController {
    const cfg: HookConfig
    const kubernetesController: KubernetesController?

    constructor (cfg: HookConfig, kubernetesController: KubernetesController?)
      ensures this.cfg == cfg && this.kubernetesController == kubernetesController
    {
      this.cfg, this.kubernetesController := cfg, kubernetesController;
    }

    method Cached(kc: KubernetesController, cache: SnapshotCache, name: string, ghost start: nat) returns (r: SnapshotCache)
      requires CachesCalls(cache, kc.answer, kc.calls, start)
      modifies kc
      ensures CachesCalls(r, kc.answer, kc.calls, start)
      ensures r.Keys == cache.Keys + {name} && Extends(cache, r)
      ensures old(kc.calls) <= kc.calls
    {
      r := cache;
      if name !in r {
        ghost var before := kc.calls;
        var objects := kc.SnapshotsFor(name);
        r := r[name := objects];
        assert kc.calls[start..] == before[start..] + [name];
      }
    }

    /** The body of the inner loop. */
    method IncludeSnapshot(kc: KubernetesController, cache: SnapshotCache, name: string, before: map<string, ObjectList>,
                           ghost names: seq<string>, ghost start: nat)
      returns (r: SnapshotCache, snapshots: map<string, ObjectList>)
      requires CachesCalls(cache, kc.answer, kc.calls, start) && Included(before, names, cache)
      modifies kc
      ensures CachesCalls(r, kc.answer, kc.calls, start) && old(kc.calls) <= kc.calls
      ensures Extends(cache, r) && Included(snapshots, names + [name], r)
    {
      r := Cached(kc, cache, name, start);
      snapshots := WithSnapshot(before, name, r[name]);
      IncludedAppend(before, names, cache, name, r);
    }

    /** Every name has at least an empty list. */
    method WithSnapshot(before: map<string, ObjectList>, name: string, objects: Option<ObjectList>) returns (snapshots: map<string, ObjectList>)
      ensures snapshots == before[name := OrEmpty(objects)]
    {
      snapshots := before[name := []];
      if objects.Some? {
        snapshots := snapshots[name := objects.value];
      }
    }

    /** The inner loop of UpdateSnapshots: a snapshot for each included binding, empty if there is none. */
    method IncludedSnapshots(kc: KubernetesController, cache: SnapshotCache, names: seq<string>, ghost start: nat)
      returns (r: SnapshotCache, snapshots: map<string, ObjectList>)
      requires CachesCalls(cache, kc.answer, kc.calls, start)
      modifies kc
      ensures CachesCalls(r, kc.answer, kc.calls, start) && old(kc.calls) <= kc.calls
      ensures Extends(cache, r) && Included(snapshots, names, r)
    {
      r, snapshots := cache, map[];
      for j := 0 to |names|
        invariant CachesCalls(r, kc.answer, kc.calls, start) && old(kc.calls) <= kc.calls
        invariant Extends(cache, r) && Included(snapshots, names[..j], r)
      {
        assert names[..j + 1] == names[..j] + [names[j]];
        ghost var before := r;
        r, snapshots := IncludeSnapshot(kc, r, names[j], snapshots, names[..j], start);
        ExtendsFurther(cache, before, r);
      }
      assert names[..|names|] == names;
    }

    /** The body of UpdateSnapshots' loop. */
    method UpdateContext(kc: KubernetesController, cache: SnapshotCache, bc: BindingContext, ghost start: nat)
      returns (r: SnapshotCache, newBc: BindingContext)
      requires CachesCalls(cache, kc.answer, kc.calls, start)
      modifies kc
      ensures CachesCalls(r, kc.answer, kc.calls, start) && old(kc.calls) <= kc.calls
      ensures Extends(cache, r) && RefreshedOne(cfg, bc, newBc, r)
    {
      var names := IncludeSnapshotsFrom(cfg, bc.bindingType, bc.binding);
      var snapshots;
      r, snapshots := IncludedSnapshots(kc, cache, names, start);
      ghost var included := r;
      newBc := bc.(snapshots := snapshots);
      if newBc.IsSynchronization() {
        r := Cached(kc, r, bc.binding, start);
        newBc := newBc.(objects := r[bc.binding]);
      }
      assert Extends(included, r);
    }

    method UpdateSnapshots(context: seq<BindingContext>) returns (newContext: seq<BindingContext>, ghost cache: SnapshotCache)
      modifies if kubernetesController == null then {} else {kubernetesController}
      ensures kubernetesController == null ==> newContext == context
      ensures kubernetesController != null ==>
                && Refreshed(cfg, context, newContext, cache)
                && CachesCalls(cache, kubernetesController.answer, kubernetesController.calls, |old(kubernetesController.calls)|)
                && old(kubernetesController.calls) <= kubernetesController.calls
    {
      cache := map[];
      if kubernetesController == null {
        return context, cache;
      }
      var kc := kubernetesController;
      ghost var start := |kc.calls|;
      var snapshotCache: SnapshotCache := map[];
      newContext := [];
      for i := 0 to |context|
        invariant Refreshed(cfg, context[..i], newContext, snapshotCache)
        invariant CachesCalls(snapshotCache, kc.answer, kc.calls, start) && old(kc.calls) <= kc.calls
      {
        ghost var cacheBefore := snapshotCache;
        var newBc;
        snapshotCache, newBc := UpdateContext(kc, snapshotCache, context[i], start);
        RefreshedAppend(cfg, context[..i], newContext, cacheBefore, context[i], newBc, snapshotCache);
        assert context[..i + 1] == context[..i] + [context[i]];
        newContext := newContext + [newBc];
      }
      assert context[..|context|] == context;
      cache := snapshotCache;
    }
  }

  lemma RefreshedAppend(cfg: HookConfig, before: seq<BindingContext>, after: seq<BindingContext>, cache: SnapshotCache,
                        bc: BindingContext, r: BindingContext, cache': SnapshotCache)
    requires Refreshed(cfg, before, after, cache)
    requires Extends(cache, cache')
    requires RefreshedOne(cfg, bc, r, cache')
    ensures Refreshed(cfg, before + [bc], after + [r], cache')
  {
    forall k | 0 <= k < |before|
      ensures RefreshedOne(cfg, before[k], after[k], cache')
    {
      assert RefreshedOne(cfg, before[k], after[k], cache);
    }
  }
}
