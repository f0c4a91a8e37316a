/** pkg/kube_events_manager/resource_informer.go: the in-memory cache of cluster objects, the event
    buffer that fills while the Synchronization hook runs, and the replay that ends it.

    The code takes its two locks several times in one method. The model is therefore built at two
    grains: a `Section` is one critical section, and a `Call` is a whole method, that is, its
    sections run without interruption. */
module ResourceInformer {
  import opened Common

  datatype WatchEventType = Added | Modified | Deleted

  /** A cluster object; `id` is its resourceId, "namespace/kind/name". */
  datatype Object = Object(id: string, body: string)

  /** A successful outcome of the jq filter or filter function. */
  datatype Filtered = Filtered(checksum: string, filterResult: string)

  datatype ObjectAndFilterResult = ObjectAndFilterResult(
    resourceId: string,
    checksum: string,
    filterResult: string,
    fullObject: Option<Object>,
    removeObject: bool)

  type Cache = map<string, ObjectAndFilterResult>

  datatype KubeEvent = KubeEvent(watchEvent: WatchEventType, result: ObjectAndFilterResult)

  datatype MonitorConfig = MonitorConfig(eventTypes: seq<WatchEventType>, keepFullObjectsInMemory: bool)

  datatype CachedObjectsInfo = CachedObjectsInfo(count: u64, added: u64, deleted: u64, modified: u64, cleaned: u64)

  const NO_OPERATIONS := CachedObjectsInfo(0, 0, 0, 0, 0)

  /** The fields of one informer that its lock sections read and write. */
  datatype Informer = Informer(
    cachedObjects: Cache,
    eventBuf: seq<KubeEvent>,
    eventCbEnabled: bool,
    total: CachedObjectsInfo,
    increment: CachedObjectsInfo)

  // ---------------------------------------------------------------------
  // handleWatchEvent, up to the decision to fire

  /** The filter result that is cached and fired; None if the event is dropped. A deleted object
      whose filter fails is represented by its cached result. */
  function Resolved(cfg: MonitorConfig, cache: Cache, t: WatchEventType, obj: Object, filtered: Option<Filtered>): Option<ObjectAndFilterResult> {
    var full :=
      match filtered
      case Some(f) => Some(ObjectAndFilterResult(obj.id, f.checksum, f.filterResult, Some(obj), false))
      case None =>
        if t == Deleted && obj.id in cache then Some(cache[obj.id].(fullObject := Some(obj))) else None;
    if full.Some? && !cfg.keepFullObjectsInMemory
    then Some(full.value.(fullObject := None, removeObject := true))
    else full
  }

  function CountOperation(info: CachedObjectsInfo, t: WatchEventType, cleaned: bool): CachedObjectsInfo {
    match t
    case Added => info.(added := AddU64(info.added, 1))
    case Modified => info.(modified := AddU64(info.modified, 1))
    case Deleted => info.(deleted := AddU64(info.deleted, 1), cleaned := AddU64(info.cleaned, if cleaned then 1 else 0))
  }

  function CacheAfter(cfg: MonitorConfig, cache: Cache, t: WatchEventType, obj: Object, filtered: Option<Filtered>): Cache {
    match Resolved(cfg, cache, t, obj, filtered)
    case None => cache
    case Some(res) => if t == Deleted then cache - {obj.id} else cache[obj.id := res]
  }

  /** Both sets of counters, unless the event was dropped. */
  function Counted(inf: Informer, t: WatchEventType, dropped: bool): Informer {
    if dropped then inf
    else
      var count: u64 := |inf.cachedObjects| % TWO_TO_THE_64;
      inf.(total := CountOperation(inf.total, t, count == 0).(count := count),
           increment := CountOperation(inf.increment, t, count == 0))
  }

  function CacheUpdated(cfg: MonitorConfig, inf: Informer, t: WatchEventType, obj: Object, filtered: Option<Filtered>): (r: Informer)
  {
    Counted(inf.(cachedObjects := CacheAfter(cfg, inf.cachedObjects, t, obj, filtered)), t,
            Resolved(cfg, inf.cachedObjects, t, obj, filtered).None?)
  }

  /** The event to fire, if any: Added and Modified are suppressed when the checksum did not change,
      and only subscribed types are fired. */
  function FiredEvent(cfg: MonitorConfig, cache: Cache, t: WatchEventType, obj: Object, filtered: Option<Filtered>): Option<KubeEvent> {
    match Resolved(cfg, cache, t, obj, filtered)
    case None => None
    case Some(res) =>
      if t != Deleted && obj.id in cache && cache[obj.id].checksum == res.checksum then None
      else if t in cfg.eventTypes then Some(KubeEvent(t, res))
      else None
  }

  // ---------------------------------------------------------------------
  // Lock sections

  /** Where the goroutine that calls the informer's handler is. client-go calls one handler from one goroutine. */
  datatype Hand =
    | Idle
    | Fired(event: KubeEvent)                       // cache updated, flag not checked yet
    | Checked(event: KubeEvent, cbEnabled: bool)    // flag checked, event not passed on yet

  /** A getCachedObjects call between its two sections; `firedBefore` counts the events fired before the copy. */
  datatype Reader = Reader(copy: Cache, firedBefore: nat)

  type Checksums = map<string, string>

  /** The informer, the calls in progress, and the history of every event. `base` is the last snapshot
      that was taken while the callback was disabled, or the initial list. */
  datatype World = World(
    inf: Informer,
    hand: Hand,
    readers: map<nat, Reader>,
    base: Checksums,
    fired: seq<KubeEvent>,
    discarded: seq<KubeEvent>,   // dropped from the buffer by a snapshot
    replayed: seq<KubeEvent>,    // passed to the callback by enableKubeEventCb
    live: seq<KubeEvent>,        // passed to the callback by the handler
    stale: seq<KubeEvent>,       // buffered although the callback was already enabled
    handedOut: seq<CachedObjectsInfo>)

  datatype Section =
    | UpdateCache(t: WatchEventType, obj: Object, filtered: Option<Filtered>)
    | CheckFlag
    | PassOn
    | CopyCache(reader: nat)
    | ResetBuffer(reader: nat)
    | EnableCb
    | TakeIncrement

  predicate CanRun(w: World, s: Section) {
    match s
    case UpdateCache(_, _, _) => w.hand.Idle?
    case CheckFlag => w.hand.Fired?
    case PassOn => w.hand.Checked?
    case CopyCache(r) => r !in w.readers
    case ResetBuffer(r) => r in w.readers
    case EnableCb => true
    case TakeIncrement => true
  }

  function ChecksumsOf(cache: Cache): Checksums {
    map id | id in cache :: cache[id].checksum
  }

  function Next(cfg: MonitorConfig, w: World, s: Section): World
    requires CanRun(w, s)
  {
    match s
    case UpdateCache(t, obj, filtered) =>
      var w1 := w.(inf := CacheUpdated(cfg, w.inf, t, obj, filtered));
      (match FiredEvent(cfg, w.inf.cachedObjects, t, obj, filtered)
       case None => w1
       case Some(e) => w1.(hand := Fired(e), fired := w.fired + [e]))
    case CheckFlag =>
      w.(hand := Checked(w.hand.event, w.inf.eventCbEnabled))
    case PassOn =>
      var e, w1 := w.hand.event, w.(hand := Idle);
      if w.hand.cbEnabled then w1.(live := w.live + [e])
      else w1.(inf := w.inf.(eventBuf := w.inf.eventBuf + [e]),
               stale := if w.inf.eventCbEnabled then w.stale + [e] else w.stale)
    case CopyCache(r) =>
      w.(readers := w.readers[r := Reader(w.inf.cachedObjects, |w.fired|)])
    case ResetBuffer(r) =>
      var w1 := w.(readers := w.readers - {r});
      if w.inf.eventCbEnabled then w1
      else w1.(inf := w.inf.(eventBuf := []),
               discarded := w.discarded + w.inf.eventBuf,
               base := ChecksumsOf(w.readers[r].copy))
    case EnableCb =>
      if w.inf.eventCbEnabled then w
      else w.(inf := w.inf.(eventBuf := [], eventCbEnabled := true), replayed := w.inf.eventBuf)
    case TakeIncrement =>
      w.(inf := w.inf.(increment := NO_OPERATIONS), handedOut := w.handedOut + [w.inf.increment])
  }

  predicate CanRunAll(cfg: MonitorConfig, w: World, run: seq<Section>)
    decreases |run|
  {
    run == [] || (CanRun(w, run[0]) && CanRunAll(cfg, Next(cfg, w, run[0]), run[1..]))
  }

  function After(cfg: MonitorConfig, w: World, run: seq<Section>): World
    requires CanRunAll(cfg, w, run)
    decreases |run|
  {
    if run == [] then w else After(cfg, Next(cfg, w, run[0]), run[1..])
  }

  /** Every event that reached the callback, in order. */
  function Delivered(w: World): seq<KubeEvent> {
    w.replayed + w.live
  }

  predicate WellKeyed(cache: Cache) {
    forall id :: id in cache ==> cache[id].resourceId == id
  }

  /** The informer after loadExistedObjects filled its cache. */
  function Loaded(cache: Cache): World {
    World(Informer(cache, [], false, NO_OPERATIONS.(count := |cache| % TWO_TO_THE_64), NO_OPERATIONS),
          Idle, map[], ChecksumsOf(cache), [], [], [], [], [], [])
  }

  // ---------------------------------------------------------------------
  // Event conservation, for every interleaving of sections

  function InHand(h: Hand): seq<KubeEvent> {
    if h.Idle? then [] else [h.event]
  }

  /** The events that left the handler's hand and were not discarded, in the order they were fired. */
  function Settled(w: World): seq<KubeEvent> {
    if w.inf.eventCbEnabled then w.replayed + w.stale + w.live else w.inf.eventBuf
  }

  /** Each fired event is in exactly one place, and all places are in firing order. Before the unlock
      nothing is delivered; after it, the buffer holds at most one event, stuck between the replayed
      and the live ones. */
  ghost predicate Conserved(w: World) {
    && w.fired == w.discarded + Settled(w) + InHand(w.hand)
    && (!w.inf.eventCbEnabled ==> w.replayed == [] && w.live == [] && w.stale == [])
    && (w.inf.eventCbEnabled ==> w.inf.eventBuf == w.stale && |w.stale| <= 1)
    && (w.hand.Checked? && w.hand.cbEnabled ==> w.inf.eventCbEnabled)
    && (w.hand.Checked? && !w.hand.cbEnabled && w.inf.eventCbEnabled ==> w.stale == [] && w.live == [])
  }

  lemma UpdateCacheConserves(cfg: MonitorConfig, w: World, s: Section)
    requires Conserved(w) && s.UpdateCache? && CanRun(w, s)
    ensures Conserved(Next(cfg, w, s))
  {
    var w1 := Next(cfg, w, s);
    assert Settled(w1) == Settled(w);
    assert w.discarded + Settled(w) + [] == w.discarded + Settled(w);
  }

  lemma PassOnConserves(cfg: MonitorConfig, w: World, s: Section)
    requires Conserved(w) && s.PassOn? && CanRun(w, s)
    ensures Conserved(Next(cfg, w, s))
  {
    var w1 := Next(cfg, w, s);
    assert Settled(w1) == Settled(w) + InHand(w.hand);
    assert w.discarded + Settled(w) + InHand(w.hand) == w.discarded + Settled(w1) + [];
  }

  lemma SectionConserves(cfg: MonitorConfig, w: World, s: Section)
    requires Conserved(w) && CanRun(w, s)
    ensures Conserved(Next(cfg, w, s))
  {
    match s
    case UpdateCache(_, _, _) => UpdateCacheConserves(cfg, w, s);
    case PassOn => PassOnConserves(cfg, w, s);
    case CheckFlag =>
    case CopyCache(_) =>
    case ResetBuffer(_) =>
    case EnableCb =>
    case TakeIncrement =>
  }

  /** Conservation over every run of critical sections, however the methods interleave. */
  lemma {:induction false} EventsAreConserved(cfg: MonitorConfig, w: World, run: seq<Section>)
    requires Conserved(w) && CanRunAll(cfg, w, run)
    ensures Conserved(After(cfg, w, run))
    decreases |run|
  {
    if run != [] {
      SectionConserves(cfg, w, run[0]);
      EventsAreConserved(cfg, Next(cfg, w, run[0]), run[1..]);
    }
  }

  /** Once unlocked, what was discarded, replayed or delivered stays so, in order, and the reference
      snapshot is final. A stale event is never delivered. */
  lemma {:induction false} NothingIsTakenBack(cfg: MonitorConfig, w: World, run: seq<Section>)
    requires w.inf.eventCbEnabled && CanRunAll(cfg, w, run)
    ensures
      var w1 := After(cfg, w, run);
      && w1.inf.eventCbEnabled && w1.base == w.base
      && w1.discarded == w.discarded && w1.replayed == w.replayed
      && w.live <= w1.live && w.stale <= w1.stale
    decreases |run|
  {
    if run != [] {
      NothingIsTakenBack(cfg, Next(cfg, w, run[0]), run[1..]);
    }
  }

  /** The stale events, counting one that the handler is about to append. */
  function StaleOrDoomed(w: World): seq<KubeEvent> {
    if w.inf.eventCbEnabled && w.hand.Checked? && !w.hand.cbEnabled then w.stale + [w.hand.event] else w.stale
  }

  lemma {:induction false} NoNewStaleEvents(cfg: MonitorConfig, w: World, run: seq<Section>)
    requires w.inf.eventCbEnabled && CanRunAll(cfg, w, run)
    ensures StaleOrDoomed(After(cfg, w, run)) == StaleOrDoomed(w)
    decreases |run|
  {
    if run != [] {
      NoNewStaleEvents(cfg, Next(cfg, w, run[0]), run[1..]);
    }
  }

  /** The flag is checked and the buffer appended to under two separate locks. An event is lost to the
      callback if and only if the unlock falls between these two sections of its handler; it is then
      the only one. */
  lemma LostExactlyWhenUnlockSplitsAppend(cfg: MonitorConfig, w: World, run: seq<Section>)
    requires Conserved(w) && !w.inf.eventCbEnabled
    requires CanRunAll(cfg, Next(cfg, w, EnableCb), run)
    ensures
      var w1 := After(cfg, Next(cfg, w, EnableCb), run);
      && StaleOrDoomed(w1) == (if w.hand.Checked? then [w.hand.event] else [])
      && (w1.hand.Idle? ==> (w1.fired == w1.discarded + Delivered(w1) <==> !w.hand.Checked?))
  {
    var w0 := Next(cfg, w, EnableCb);
    SectionConserves(cfg, w, EnableCb);
    EventsAreConserved(cfg, w0, run);
    NoNewStaleEvents(cfg, w0, run);
    NothingIsTakenBack(cfg, w0, run);
    var w1 := After(cfg, w0, run);
    if w1.hand.Idle? {
      assert |w1.fired| == |w1.discarded| + |w1.replayed| + |w1.stale| + |w1.live|;
      if w1.stale == [] {
        assert w1.replayed + w1.stale + w1.live == Delivered(w1);
        assert w1.discarded + Delivered(w1) + [] == w1.discarded + Delivered(w1);
      }
    }
  }

  // ---------------------------------------------------------------------
  // Replay: snapshot plus events give the cache

  /** What a hook makes of one event. */
  function AppliedOne(m: Checksums, e: KubeEvent): Checksums {
    if e.watchEvent == Deleted then m - {e.result.resourceId} else m[e.result.resourceId := e.result.checksum]
  }

  function Applied(m: Checksums, events: seq<KubeEvent>): Checksums
    decreases |events|
  {
    if events == [] then m else Applied(AppliedOne(m, events[0]), events[1..])
  }

  lemma {:induction false} AppliedAppend(m: Checksums, a: seq<KubeEvent>, b: seq<KubeEvent>)
    ensures Applied(m, a + b) == Applied(Applied(m, a), b)
    decreases |a|
  {
    if a == [] {
      assert a + b == b;
    } else {
      assert (a + b)[0] == a[0] && (a + b)[1..] == a[1..] + b;
      AppliedAppend(AppliedOne(m, a[0]), a[1..], b);
    }
  }

  lemma OneEvent(m: Checksums, e: KubeEvent)
    ensures Applied(m, [e]) == AppliedOne(m, e)
  {
    assert [e][1..] == [];
  }

  predicate AllTypesSubscribed(cfg: MonitorConfig) {
    Added in cfg.eventTypes && Modified in cfg.eventTypes && Deleted in cfg.eventTypes
  }

  lemma ResolvedKeepsId(cfg: MonitorConfig, cache: Cache, t: WatchEventType, obj: Object, filtered: Option<Filtered>)
    requires WellKeyed(cache)
    ensures
      var res := Resolved(cfg, cache, t, obj, filtered);
      res.Some? ==> res.value.resourceId == obj.id
  {
  }

  lemma ChecksumsAfterUpdate(cfg: MonitorConfig, cache: Cache, t: WatchEventType, obj: Object, filtered: Option<Filtered>)
    requires WellKeyed(cache)
    ensures
      var after, res := CacheAfter(cfg, cache, t, obj, filtered), Resolved(cfg, cache, t, obj, filtered);
      && WellKeyed(after)
      && ChecksumsOf(after) == (if res.None? then ChecksumsOf(cache) else AppliedOne(ChecksumsOf(cache), KubeEvent(t, res.value)))
  {
    ResolvedKeepsId(cfg, cache, t, obj, filtered);
  }

  /** Handling one watch event changes the checksums exactly as its fired event, if any, says. */
  lemma CacheFollowsFiredEvent(cfg: MonitorConfig, cache: Cache, t: WatchEventType, obj: Object, filtered: Option<Filtered>)
    requires AllTypesSubscribed(cfg) && WellKeyed(cache)
    ensures
      var before, after := ChecksumsOf(cache), ChecksumsOf(CacheAfter(cfg, cache, t, obj, filtered));
      var e := FiredEvent(cfg, cache, t, obj, filtered);
      && WellKeyed(CacheAfter(cfg, cache, t, obj, filtered))
      && after == (if e.None? then before else Applied(before, [e.value]))
      && (e.Some? ==> Applied(after, [e.value]) == after)
  {
    ChecksumsAfterUpdate(cfg, cache, t, obj, filtered);
    var before := ChecksumsOf(cache);
    var res := Resolved(cfg, cache, t, obj, filtered);
    if res.Some? {
      ResolvedKeepsId(cfg, cache, t, obj, filtered);
      var e := KubeEvent(t, res.value);
      OneEvent(before, e);
      OneEvent(AppliedOne(before, e), e);
      assert t in cfg.eventTypes;
      if FiredEvent(cfg, cache, t, obj, filtered).None? {
        assert before[obj.id] == res.value.checksum;
        assert AppliedOne(before, e) == before;
      }
    }
  }

  /** Each snapshot copy, with the events fired since, is up to date; the event in the handler's hand
      is already in the cache. */
  ghost predicate Tracked(w: World) {
    && WellKeyed(w.inf.cachedObjects)
    && Applied(ChecksumsOf(w.inf.cachedObjects), InHand(w.hand)) == ChecksumsOf(w.inf.cachedObjects)
    && (forall r :: r in w.readers ==>
          && w.readers[r].firedBefore <= |w.fired|
          && Applied(ChecksumsOf(w.readers[r].copy), w.fired[w.readers[r].firedBefore..]) == ChecksumsOf(w.inf.cachedObjects))
  }

  /** The reference snapshot and every event that was not discarded with an older one give the cache. */
  ghost predicate Replays(w: World) {
    Applied(w.base, Settled(w) + InHand(w.hand)) == ChecksumsOf(w.inf.cachedObjects)
  }

  lemma SectionKeepsTracked(cfg: MonitorConfig, w: World, s: Section)
    requires AllTypesSubscribed(cfg) && Tracked(w) && CanRun(w, s)
    ensures Tracked(Next(cfg, w, s))
  {
    if s.UpdateCache? {
      CacheFollowsFiredEvent(cfg, w.inf.cachedObjects, s.t, s.obj, s.filtered);
      var e := FiredEvent(cfg, w.inf.cachedObjects, s.t, s.obj, s.filtered);
      if e.Some? {
        forall r | r in w.readers
          ensures Applied(ChecksumsOf(w.readers[r].copy), (w.fired + [e.value])[w.readers[r].firedBefore..])
               == ChecksumsOf(CacheAfter(cfg, w.inf.cachedObjects, s.t, s.obj, s.filtered))
        {
          var n := w.readers[r].firedBefore;
          assert (w.fired + [e.value])[n..] == w.fired[n..] + [e.value];
          AppliedAppend(ChecksumsOf(w.readers[r].copy), w.fired[n..], [e.value]);
        }
      }
    } else if s.CopyCache? {
      assert w.fired[|w.fired|..] == [];
    }
  }

  /** getCachedObjects copies the cache and clears the buffer under two separate locks. This says that
      no event was buffered in between: each one fired since the copy is still in the handler's hand. */
  predicate CleanReset(w: World, s: Section) {
    s.ResetBuffer? && s.reader in w.readers && !w.inf.eventCbEnabled
    ==> |w.fired| - |InHand(w.hand)| <= w.readers[s.reader].firedBefore
  }

  lemma UpdateCacheKeepsReplay(cfg: MonitorConfig, w: World, s: Section)
    requires AllTypesSubscribed(cfg) && Tracked(w) && Replays(w)
    requires s.UpdateCache? && CanRun(w, s)
    ensures Replays(Next(cfg, w, s))
  {
    var w1 := Next(cfg, w, s);
    CacheFollowsFiredEvent(cfg, w.inf.cachedObjects, s.t, s.obj, s.filtered);
    assert Settled(w1) == Settled(w) && Settled(w) + [] == Settled(w);
    AppliedAppend(w.base, Settled(w), InHand(w1.hand));
  }

  lemma CleanResetReplays(cfg: MonitorConfig, w: World, s: Section)
    requires Conserved(w) && Tracked(w) && Replays(w)
    requires s.ResetBuffer? && CanRun(w, s) && CleanReset(w, s)
    ensures Replays(Next(cfg, w, s))
  {
    if !w.inf.eventCbEnabled {
      var n := w.readers[s.reader].firedBefore;
      assert w.fired == (w.discarded + Settled(w)) + InHand(w.hand);
      assert w.fired[n..] == [] || w.fired[n..] == InHand(w.hand);
      assert [] + InHand(w.hand) == InHand(w.hand);
    }
  }

  lemma SectionKeepsReplay(cfg: MonitorConfig, w: World, s: Section)
    requires AllTypesSubscribed(cfg) && Conserved(w) && Tracked(w) && Replays(w)
    requires CanRun(w, s) && CleanReset(w, s)
    ensures Replays(Next(cfg, w, s))
  {
    var w1 := Next(cfg, w, s);
    match s
    case UpdateCache(_, _, _) => UpdateCacheKeepsReplay(cfg, w, s);
    case ResetBuffer(_) => CleanResetReplays(cfg, w, s);
    case PassOn =>
      assert Settled(w1) + [] == Settled(w) + InHand(w.hand);
    case EnableCb =>
      assert Settled(w1) == Settled(w);
    case CheckFlag =>
    case CopyCache(_) =>
    case TakeIncrement =>
  }

  predicate CleanRun(cfg: MonitorConfig, w: World, run: seq<Section>)
    requires CanRunAll(cfg, w, run)
    decreases |run|
  {
    run == [] || (CleanReset(w, run[0]) && CleanRun(cfg, Next(cfg, w, run[0]), run[1..]))
  }

  /** Replay at the grain of lock sections: whatever interleaves, as long as every snapshot is clean. */
  lemma {:induction false} CleanRunsReplay(cfg: MonitorConfig, w: World, run: seq<Section>)
    requires AllTypesSubscribed(cfg) && Conserved(w) && Tracked(w) && Replays(w)
    requires CanRunAll(cfg, w, run) && CleanRun(cfg, w, run)
    ensures
      var w1 := After(cfg, w, run);
      Conserved(w1) && Tracked(w1) && Replays(w1)
    decreases |run|
  {
    if run != [] {
      SectionConserves(cfg, w, run[0]);
      SectionKeepsTracked(cfg, w, run[0]);
      SectionKeepsReplay(cfg, w, run[0]);
      CleanRunsReplay(cfg, Next(cfg, w, run[0]), run[1..]);
    }
  }

  /** A snapshot that is not clean discards events it does not contain, and only then: the discarded
      events that were fired after the copy are none if and only if the reset is clean. */
  lemma ResetDropsUnseenEventsIffDirty(cfg: MonitorConfig, w: World, r: nat)
    requires Conserved(w) && r in w.readers && !w.inf.eventCbEnabled && w.readers[r].firedBefore <= |w.fired|
    ensures
      var w1 := Next(cfg, w, ResetBuffer(r));
      && w1.discarded <= w1.fired
      && (|w1.discarded| <= w.readers[r].firedBefore <==> CleanReset(w, ResetBuffer(r)))
  {
    assert w.fired == (w.discarded + w.inf.eventBuf) + InHand(w.hand);
  }

  // ---------------------------------------------------------------------
  // Two runs in which the replay fails

  const EVERY_TYPE := MonitorConfig([Added, Modified, Deleted], true)

  /** The unlock falls between the flag check and the append: the object is in the cache, its event stays
      in the buffer, the callback never hears of it. */
  lemma UnlockCanLoseAnEvent(obj: Object, filtered: Filtered)
    ensures
      var run := [UpdateCache(Added, obj, Some(filtered)), CheckFlag, EnableCb, PassOn];
      && CanRunAll(EVERY_TYPE, Loaded(map[]), run)
      && var w := After(EVERY_TYPE, Loaded(map[]), run);
      && w.inf.eventCbEnabled && w.hand.Idle? && |w.inf.eventBuf| == 1
      && Applied(w.base, Delivered(w)) != ChecksumsOf(w.inf.cachedObjects)
  {
    var r0 := [UpdateCache(Added, obj, Some(filtered)), CheckFlag, EnableCb, PassOn];
    var w0 := Loaded(map[]);
    var w1 := Next(EVERY_TYPE, w0, r0[0]);
    var e := FiredEvent(EVERY_TYPE, map[], Added, obj, Some(filtered));
    assert Added in EVERY_TYPE.eventTypes && e.Some?;
    var w2 := Next(EVERY_TYPE, w1, CheckFlag);
    var w3 := Next(EVERY_TYPE, w2, EnableCb);
    var w4 := Next(EVERY_TYPE, w3, PassOn);
    FourSections(EVERY_TYPE, w0, r0[0], CheckFlag, EnableCb, PassOn);
    assert Delivered(w4) == [];
    assert obj.id in ChecksumsOf(w4.inf.cachedObjects);
  }

  /** The event falls between the two sections of a snapshot: it is in neither the snapshot nor the buffer. */
  lemma SnapshotCanLoseAnEvent(obj: Object, filtered: Filtered)
    ensures
      var run := [CopyCache(0), UpdateCache(Added, obj, Some(filtered)), CheckFlag, PassOn, ResetBuffer(0)];
      && CanRunAll(EVERY_TYPE, Loaded(map[]), run)
      && var w := After(EVERY_TYPE, Loaded(map[]), run);
      && !w.inf.eventCbEnabled && w.hand.Idle? && w.inf.eventBuf == []
      && Applied(w.base, w.inf.eventBuf) != ChecksumsOf(w.inf.cachedObjects)
  {
    var run := [CopyCache(0), UpdateCache(Added, obj, Some(filtered)), CheckFlag, PassOn, ResetBuffer(0)];
    var w0 := Next(EVERY_TYPE, Loaded(map[]), CopyCache(0));
    assert Added in EVERY_TYPE.eventTypes && FiredEvent(EVERY_TYPE, map[], Added, obj, Some(filtered)).Some?;
    FourSections(EVERY_TYPE, w0, run[1], CheckFlag, PassOn, ResetBuffer(0));
    assert run[1..] == [run[1], CheckFlag, PassOn, ResetBuffer(0)];
    assert obj.id in ChecksumsOf(After(EVERY_TYPE, Loaded(map[]), run).inf.cachedObjects);
  }

  lemma FourSections(cfg: MonitorConfig, w: World, s0: Section, s1: Section, s2: Section, s3: Section)
    requires CanRun(w, s0) && CanRun(Next(cfg, w, s0), s1)
    requires CanRun(Next(cfg, Next(cfg, w, s0), s1), s2)
    requires CanRun(Next(cfg, Next(cfg, Next(cfg, w, s0), s1), s2), s3)
    ensures CanRunAll(cfg, w, [s0, s1, s2, s3])
    ensures After(cfg, w, [s0, s1, s2, s3]) == Next(cfg, Next(cfg, Next(cfg, Next(cfg, w, s0), s1), s2), s3)
  {
    var w1 := Next(cfg, w, s0);
    var w2 := Next(cfg, w1, s1);
    var w3 := Next(cfg, w2, s2);
    FirstSection(cfg, w3, s3, []);
    FirstSection(cfg, w2, s2, [s3]);
    FirstSection(cfg, w1, s1, [s2, s3]);
    FirstSection(cfg, w, s0, [s1, s2, s3]);
    assert [s3] + [] == [s3] && [s2] + [s3] == [s2, s3] && [s1] + [s2, s3] == [s1, s2, s3];
    assert [s0] + [s1, s2, s3] == [s0, s1, s2, s3];
  }

  lemma FirstSection(cfg: MonitorConfig, w: World, s: Section, rest: seq<Section>)
    requires CanRun(w, s) && CanRunAll(cfg, Next(cfg, w, s), rest)
    ensures CanRunAll(cfg, w, [s] + rest) && After(cfg, w, [s] + rest) == After(cfg, Next(cfg, w, s), rest)
  {
    assert ([s] + rest)[1..] == rest;
  }

  // ---------------------------------------------------------------------
  // Whole methods

  datatype Call =
    | HandleWatchEvent(t: WatchEventType, obj: Object, filtered: Option<Filtered>)
    | GetCachedObjects
    | EnableKubeEventCb
    | GetCachedObjectsInfoIncrement

  /** No method is in progress, and none was interrupted before. */
  predicate AtRest(w: World) {
    w.hand.Idle? && w.readers == map[] && w.stale == []
  }

  /** A method that runs without interruption is the sequence of its sections. */
  function Called(cfg: MonitorConfig, w: World, c: Call): (r: World)
    requires AtRest(w)
    ensures AtRest(r)
  {
    match c
    case HandleWatchEvent(t, obj, filtered) =>
      var w1 := Next(cfg, w, UpdateCache(t, obj, filtered));
      if w1.hand.Idle? then w1 else Next(cfg, Next(cfg, w1, CheckFlag), PassOn)
    case GetCachedObjects => Next(cfg, Next(cfg, w, CopyCache(0)), ResetBuffer(0))
    case EnableKubeEventCb => Next(cfg, w, EnableCb)
    case GetCachedObjectsInfoIncrement => Next(cfg, w, TakeIncrement)
  }

  function CalledAll(cfg: MonitorConfig, w: World, calls: seq<Call>): (r: World)
    requires AtRest(w)
    ensures AtRest(r)
    decreases |calls|
  {
    if calls == [] then w else CalledAll(cfg, Called(cfg, w, calls[0]), calls[1..])
  }

  /** The reference snapshot, the delivered events and the buffered events, in this order, give the cache. */
  ghost predicate ReplayGivesCache(w: World) {
    Applied(w.base, Delivered(w) + w.inf.eventBuf) == ChecksumsOf(w.inf.cachedObjects)
  }

  /** What whole methods keep. */
  ghost predicate Sound(cfg: MonitorConfig, w: World) {
    && AtRest(w) && Conserved(w) && CountersAgree(w) && WellKeyed(w.inf.cachedObjects)
    && (AllTypesSubscribed(cfg) ==> Tracked(w) && Replays(w))
  }

  lemma SoundWorldsReplay(cfg: MonitorConfig, w: World)
    requires Sound(cfg, w) && AllTypesSubscribed(cfg)
    ensures ReplayGivesCache(w)
  {
    assert Settled(w) + InHand(w.hand) == Delivered(w) + w.inf.eventBuf;
  }

  lemma LoadedIsSound(cfg: MonitorConfig, cache: Cache)
    requires WellKeyed(cache)
    ensures Sound(cfg, Loaded(cache))
  {
    var w := Loaded(cache);
    assert Settled(w) + InHand(w.hand) == [];
  }

  ghost predicate SectionSound(cfg: MonitorConfig, w: World) {
    && Conserved(w) && CountersAgree(w) && WellKeyed(w.inf.cachedObjects)
    && (AllTypesSubscribed(cfg) ==> Tracked(w) && Replays(w))
  }

  lemma CleanSectionKeepsSound(cfg: MonitorConfig, w: World, s: Section)
    requires SectionSound(cfg, w) && CanRun(w, s) && CleanReset(w, s)
    ensures SectionSound(cfg, Next(cfg, w, s))
  {
    SectionConserves(cfg, w, s);
    SectionKeepsCounters(cfg, w, s);
    if s.UpdateCache? {
      ChecksumsAfterUpdate(cfg, w.inf.cachedObjects, s.t, s.obj, s.filtered);
    }
    if AllTypesSubscribed(cfg) {
      SectionKeepsTracked(cfg, w, s);
      SectionKeepsReplay(cfg, w, s);
    }
  }

  lemma CallKeepsSound(cfg: MonitorConfig, w: World, c: Call)
    requires Sound(cfg, w)
    ensures Sound(cfg, Called(cfg, w, c))
  {
    match c
    case HandleWatchEvent(t, obj, filtered) =>
      CleanSectionKeepsSound(cfg, w, UpdateCache(t, obj, filtered));
      var w1 := Next(cfg, w, UpdateCache(t, obj, filtered));
      if !w1.hand.Idle? {
        CleanSectionKeepsSound(cfg, w1, CheckFlag);
        CleanSectionKeepsSound(cfg, Next(cfg, w1, CheckFlag), PassOn);
      }
    case GetCachedObjects =>
      CleanSectionKeepsSound(cfg, w, CopyCache(0));
      CleanSectionKeepsSound(cfg, Next(cfg, w, CopyCache(0)), ResetBuffer(0));
    case EnableKubeEventCb =>
      CleanSectionKeepsSound(cfg, w, EnableCb);
    case GetCachedObjectsInfoIncrement =>
      CleanSectionKeepsSound(cfg, w, TakeIncrement);
  }

  lemma {:induction false} CallsKeepSound(cfg: MonitorConfig, w: World, calls: seq<Call>)
    requires Sound(cfg, w)
    ensures Sound(cfg, CalledAll(cfg, w, calls))
    decreases |calls|
  {
    if calls != [] {
      CallKeepsSound(cfg, w, calls[0]);
      CallsKeepSound(cfg, Called(cfg, w, calls[0]), calls[1..]);
    }
  }

  /** The replay law for whole methods, exactly: it holds over all runs from every initial list if and
      only if the monitor subscribes to all three event types. */
  lemma ReplayNeedsEveryType(cfg: MonitorConfig)
    ensures
      (forall cache: Cache, calls: seq<Call> | WellKeyed(cache) ::
         ReplayGivesCache(CalledAll(cfg, Loaded(cache), calls)))
      <==> AllTypesSubscribed(cfg)
  {
    if AllTypesSubscribed(cfg) {
      forall cache: Cache, calls: seq<Call> | WellKeyed(cache)
        ensures ReplayGivesCache(CalledAll(cfg, Loaded(cache), calls))
      {
        LoadedIsSound(cfg, cache);
        CallsKeepSound(cfg, Loaded(cache), calls);
        SoundWorldsReplay(cfg, CalledAll(cfg, Loaded(cache), calls));
      }
    } else {
      var cache, calls := UnsubscribedTypeBreaksReplay(cfg);
      assert !ReplayGivesCache(CalledAll(cfg, Loaded(cache), calls));
    }
  }

  lemma UnsubscribedTypeBreaksReplay(cfg: MonitorConfig) returns (cache: Cache, calls: seq<Call>)
    requires !AllTypesSubscribed(cfg)
    ensures WellKeyed(cache) && !ReplayGivesCache(CalledAll(cfg, Loaded(cache), calls))
  {
    var obj, filtered := Object("ns/kind/name", ""), Filtered("checksum", "");
    var t := if Added !in cfg.eventTypes then Added else if Modified !in cfg.eventTypes then Modified else Deleted;
    cache := if t == Deleted then map[obj.id := ObjectAndFilterResult(obj.id, "checksum", "", None, true)] else map[];
    var c := HandleWatchEvent(t, obj, Some(filtered));
    calls := [c];
    var w := Called(cfg, Loaded(cache), c);
    assert [c][1..] == [] && CalledAll(cfg, Loaded(cache), calls) == w;
    assert Delivered(w) + w.inf.eventBuf == [];
    assert obj.id in w.base <==> t == Deleted;
    assert obj.id in ChecksumsOf(w.inf.cachedObjects) <==> t != Deleted;
  }

  // ---------------------------------------------------------------------
  // Cache and events, judged by the watch events alone

  /** What is kept of an object whose filter gave `f`. */
  function OutcomeOf(cfg: MonitorConfig, obj: Object, f: Filtered): ObjectAndFilterResult {
    ObjectAndFilterResult(obj.id, f.checksum, f.filterResult, if cfg.keepFullObjectsInMemory then Some(obj) else None,
                          !cfg.keepFullObjectsInMemory)
  }

  /** The outcome for the last object with this id whose filter succeeded, unless it was deleted since. */
  function LastOutcome(cfg: MonitorConfig, before: Cache, run: seq<Section>, id: string): Option<ObjectAndFilterResult> {
    if run == [] then if id in before then Some(before[id]) else None
    else
      var rest, s := LastOutcome(cfg, before, run[..|run| - 1], id), run[|run| - 1];
      if !s.UpdateCache? || s.obj.id != id then rest
      else if s.t == Deleted then None
      else if s.filtered.Some? then Some(OutcomeOf(cfg, s.obj, s.filtered.value))
      else rest
  }

  /** The event that the last section of the run fires, if any. */
  function NewEvents(cfg: MonitorConfig, before: Cache, run: seq<Section>): seq<KubeEvent>
    requires run != []
  {
    var s := run[|run| - 1];
    if !s.UpdateCache? || s.t !in cfg.eventTypes then []
    else
      var known := LastOutcome(cfg, before, run[..|run| - 1], s.obj.id);
      if s.filtered.Some? then
        if s.t != Deleted && known.Some? && known.value.checksum == s.filtered.value.checksum then []
        else [KubeEvent(s.t, OutcomeOf(cfg, s.obj, s.filtered.value))]
      else if s.t == Deleted && known.Some? then
        [KubeEvent(Deleted, if cfg.keepFullObjectsInMemory then known.value.(fullObject := Some(s.obj))
                            else known.value.(fullObject := None, removeObject := true))]
      else []
  }

  /** All events of the run. */
  function EventsOf(cfg: MonitorConfig, before: Cache, run: seq<Section>): seq<KubeEvent> {
    if run == [] then []
    else EventsOf(cfg, before, run[..|run| - 1]) + NewEvents(cfg, before, run)
  }

  lemma {:induction false} AfterSnoc(cfg: MonitorConfig, w: World, run: seq<Section>)
    requires run != [] && CanRunAll(cfg, w, run)
    ensures
      var init, last := run[..|run| - 1], run[|run| - 1];
      CanRunAll(cfg, w, init) && CanRun(After(cfg, w, init), last) && After(cfg, w, run) == Next(cfg, After(cfg, w, init), last)
    decreases |run|
  {
    if |run| > 1 {
      var w1, rest, init := Next(cfg, w, run[0]), run[1..], run[..|run| - 1];
      AfterSnoc(cfg, w1, rest);
      assert rest[..|rest| - 1] == init[1..] && init[0] == run[0] && rest[|rest| - 1] == run[|run| - 1];
      assert CanRunAll(cfg, w, init) && After(cfg, w, init) == After(cfg, w1, init[1..]);
    } else {
      assert run[1..] == [] && run[..0] == [];
    }
  }

  /** The cache holds for each id exactly its last outcome. */
  ghost predicate HoldsLastOutcomes(cfg: MonitorConfig, before: Cache, run: seq<Section>, cache: Cache) {
    forall id :: LastOutcome(cfg, before, run, id) == if id in cache then Some(cache[id]) else None
  }

  /** Cache and fired events are what the run says, from a world in which these events had been fired. */
  ghost predicate FollowsObjects(cfg: MonitorConfig, before: Cache, firedBefore: seq<KubeEvent>, run: seq<Section>, w: World) {
    && HoldsLastOutcomes(cfg, before, run, w.inf.cachedObjects)
    && w.fired == firedBefore + EventsOf(cfg, before, run)
  }

  /** Whatever interleaves: the cache holds the outcome of the last object of each id, with its own filter result, and
      the fired events are exactly those of changed objects and of deletions, with the results that the filter gave;
      a deletion whose filter fails has the result cached before. */
  lemma {:induction false} CacheAndEventsFollowObjects(cfg: MonitorConfig, w: World, run: seq<Section>)
    requires CanRunAll(cfg, w, run)
    ensures FollowsObjects(cfg, w.inf.cachedObjects, w.fired, run, After(cfg, w, run))
  {
    if run == [] {
      NothingFollows(cfg, w);
    } else {
      var init, last := run[..|run| - 1], run[|run| - 1];
      AfterSnoc(cfg, w, run);
      CacheAndEventsFollowObjects(cfg, w, init);
      assert init + [last] == run;
      SectionFollowsObjects(cfg, w.inf.cachedObjects, w.fired, init, After(cfg, w, init), last);
    }
  }

  lemma NothingFollows(cfg: MonitorConfig, w: World)
    ensures FollowsObjects(cfg, w.inf.cachedObjects, w.fired, [], w)
  {
    assert w.fired + [] == w.fired;
  }

  lemma SectionFollowsObjects(cfg: MonitorConfig, before: Cache, firedBefore: seq<KubeEvent>, init: seq<Section>, w: World, s: Section)
    requires FollowsObjects(cfg, before, firedBefore, init, w) && CanRun(w, s)
    ensures FollowsObjects(cfg, before, firedBefore, init + [s], Next(cfg, w, s))
  {
    var run := init + [s];
    assert run[..|run| - 1] == init && run[|run| - 1] == s;
    AppendAssociates(firedBefore, EventsOf(cfg, before, init), NewEvents(cfg, before, run));
    SectionFires(cfg, before, init, w, s);
    if s.UpdateCache? {
      UpdateFollowsObject(cfg, before, init, w.inf.cachedObjects, s);
    } else {
      OtherSectionsKeepOutcomes(cfg, before, init, w.inf.cachedObjects, s);
    }
  }

  lemma SectionFires(cfg: MonitorConfig, before: Cache, init: seq<Section>, w: World, s: Section)
    requires HoldsLastOutcomes(cfg, before, init, w.inf.cachedObjects) && CanRun(w, s)
    ensures Next(cfg, w, s).fired == w.fired + NewEvents(cfg, before, init + [s])
  {
    assert w.fired + [] == w.fired;
    if s.UpdateCache? {
      UpdateFollowsObject(cfg, before, init, w.inf.cachedObjects, s);
    }
  }

  lemma OtherSectionsKeepOutcomes(cfg: MonitorConfig, before: Cache, init: seq<Section>, cache: Cache, s: Section)
    requires HoldsLastOutcomes(cfg, before, init, cache) && !s.UpdateCache?
    ensures HoldsLastOutcomes(cfg, before, init + [s], cache)
  {
    var run := init + [s];
    assert run[..|run| - 1] == init && run[|run| - 1] == s;
    assert forall id :: LastOutcome(cfg, before, run, id) == LastOutcome(cfg, before, init, id);
  }

  lemma UpdateFollowsObject(cfg: MonitorConfig, before: Cache, init: seq<Section>, cache: Cache, s: Section)
    requires HoldsLastOutcomes(cfg, before, init, cache) && s.UpdateCache?
    ensures HoldsLastOutcomes(cfg, before, init + [s], CacheAfter(cfg, cache, s.t, s.obj, s.filtered))
    ensures
      var e := FiredEvent(cfg, cache, s.t, s.obj, s.filtered);
      NewEvents(cfg, before, init + [s]) == if e.None? then [] else [e.value]
  {
    var run := init + [s];
    assert run[..|run| - 1] == init && run[|run| - 1] == s;
    assert LastOutcome(cfg, before, init, s.obj.id) == if s.obj.id in cache then Some(cache[s.obj.id]) else None;
    var after := CacheAfter(cfg, cache, s.t, s.obj, s.filtered);
    forall id
      ensures LastOutcome(cfg, before, run, id) == if id in after then Some(after[id]) else None
    {
      assert LastOutcome(cfg, before, init, id) == if id in cache then Some(cache[id]) else None;
    }
  }

  // ---------------------------------------------------------------------
  // Operation counters

  /** CachedObjectsInfo.add (pkg/kube_events_manager/util.go) */
  function AddInfo(a: CachedObjectsInfo, b: CachedObjectsInfo): CachedObjectsInfo {
    CachedObjectsInfo(AddU64(a.count, b.count), AddU64(a.added, b.added), AddU64(a.deleted, b.deleted),
                      AddU64(a.modified, b.modified), AddU64(a.cleaned, b.cleaned))
  }

  function SumOf(infos: seq<CachedObjectsInfo>): CachedObjectsInfo {
    if infos == [] then NO_OPERATIONS else AddInfo(SumOf(infos[..|infos| - 1]), infos[|infos| - 1])
  }

  /** The since-start counters are the increments handed out so far plus the pending one, modulo 2^64,
      and Count is the size of the cache. */
  ghost predicate CountersAgree(w: World) {
    InformerAgrees(SumOf(w.handedOut), w.inf)
  }

  lemma AddU64Wraps(a: u64, b: u64)
    ensures AddU64(a, b) == if a + b < TWO_TO_THE_64 then a + b else a + b - TWO_TO_THE_64
  {
  }

  lemma AddU64Associates(a: u64, b: u64, c: u64)
    ensures AddU64(a, AddU64(b, c)) == AddU64(AddU64(a, b), c)
  {
    AddU64Wraps(a, b);
    AddU64Wraps(b, c);
    AddU64Wraps(a, AddU64(b, c));
    AddU64Wraps(AddU64(a, b), c);
  }

  lemma CountedIncrement(sum: CachedObjectsInfo, info: CachedObjectsInfo, t: WatchEventType, cleaned: bool)
    ensures AddInfo(sum, CountOperation(info, t, cleaned)) == CountOperation(AddInfo(sum, info), t, cleaned)
  {
    AddU64Associates(sum.added, info.added, 1);
    AddU64Associates(sum.modified, info.modified, 1);
    AddU64Associates(sum.deleted, info.deleted, 1);
    AddU64Associates(sum.cleaned, info.cleaned, if cleaned then 1 else 0);
  }

  /** The counters of one informer agree, given the sum of the increments handed out. */
  ghost predicate InformerAgrees(sum: CachedObjectsInfo, inf: Informer) {
    && inf.total == AddInfo(sum, inf.increment).(count := inf.total.count)
    && inf.total.count == |inf.cachedObjects| % TWO_TO_THE_64
  }

  lemma CountedAgrees(sum: CachedObjectsInfo, inf: Informer, cache: Cache, t: WatchEventType)
    requires InformerAgrees(sum, inf)
    ensures InformerAgrees(sum, Counted(inf.(cachedObjects := cache), t, false))
  {
    var count: u64 := |cache| % TWO_TO_THE_64;
    CountedIncrement(sum, inf.increment, t, count == 0);
    var r := Counted(inf.(cachedObjects := cache), t, false);
    assert r.increment == CountOperation(inf.increment, t, count == 0);
    assert r.total == CountOperation(inf.total, t, count == 0).(count := count);
  }

  lemma UpdateAgrees(sum: CachedObjectsInfo, cfg: MonitorConfig, inf: Informer, t: WatchEventType, obj: Object, filtered: Option<Filtered>)
    requires InformerAgrees(sum, inf)
    ensures InformerAgrees(sum, CacheUpdated(cfg, inf, t, obj, filtered))
  {
    if Resolved(cfg, inf.cachedObjects, t, obj, filtered).Some? {
      CountedAgrees(sum, inf, CacheAfter(cfg, inf.cachedObjects, t, obj, filtered), t);
    }
  }

  lemma IncrementTaken(sum: CachedObjectsInfo, inf: Informer)
    requires InformerAgrees(sum, inf)
    ensures InformerAgrees(AddInfo(sum, inf.increment), inf.(increment := NO_OPERATIONS))
  {
  }

  lemma SectionKeepsCounters(cfg: MonitorConfig, w: World, s: Section)
    requires CountersAgree(w) && CanRun(w, s)
    ensures CountersAgree(Next(cfg, w, s))
  {
    if s.UpdateCache? {
      UpdateAgrees(SumOf(w.handedOut), cfg, w.inf, s.t, s.obj, s.filtered);
      assert Next(cfg, w, s).inf == CacheUpdated(cfg, w.inf, s.t, s.obj, s.filtered);
    } else if s.TakeIncrement? {
      var handedOut := w.handedOut + [w.inf.increment];
      assert handedOut[..|handedOut| - 1] == w.handedOut;
      IncrementTaken(SumOf(w.handedOut), w.inf);
    } else {
      var inf := Next(cfg, w, s).inf;
      assert inf == w.inf.(eventBuf := inf.eventBuf, eventCbEnabled := inf.eventCbEnabled);
    }
  }

  /** Counters over every run of lock sections, subscribed or not, clean or not. */
  lemma {:induction false} CountersAgreeAlways(cfg: MonitorConfig, w: World, run: seq<Section>)
    requires CountersAgree(w) && CanRunAll(cfg, w, run)
    ensures CountersAgree(After(cfg, w, run))
    decreases |run|
  {
    if run != [] {
      SectionKeepsCounters(cfg, w, run[0]);
      CountersAgreeAlways(cfg, Next(cfg, w, run[0]), run[1..]);
    }
  }

  // ---------------------------------------------------------------------
  // The counters count the watch events

  /** How many watch events of each type were handled, and how many deletions left the cache empty. */
  datatype EventCounts = EventCounts(added: nat, modified: nat, deleted: nat, cleaned: nat)

  function Plus(a: EventCounts, b: EventCounts): EventCounts {
    EventCounts(a.added + b.added, a.modified + b.modified, a.deleted + b.deleted, a.cleaned + b.cleaned)
  }

  /** The section handles a watch event of this type: its filter succeeds, or it deletes an object that is cached. */
  predicate Handles(w: World, s: Section, t: WatchEventType) {
    s.UpdateCache? && s.t == t && (s.filtered.Some? || (t == Deleted && s.obj.id in w.inf.cachedObjects))
  }

  function CountsOf(cfg: MonitorConfig, w: World, s: Section): EventCounts
    requires CanRun(w, s)
  {
    var deletes := Handles(w, s, Deleted);
    EventCounts(if Handles(w, s, Added) then 1 else 0, if Handles(w, s, Modified) then 1 else 0, if deletes then 1 else 0,
                if deletes && |Next(cfg, w, s).inf.cachedObjects| % TWO_TO_THE_64 == 0 then 1 else 0)
  }

  function CountsIn(cfg: MonitorConfig, w: World, run: seq<Section>): EventCounts
    requires CanRunAll(cfg, w, run)
    decreases |run|
  {
    if run == [] then EventCounts(0, 0, 0, 0)
    else Plus(CountsOf(cfg, w, run[0]), CountsIn(cfg, Next(cfg, w, run[0]), run[1..]))
  }

  /** The counters have grown by so many events, modulo 2^64. */
  predicate Grown(c: CachedObjectsInfo, c1: CachedObjectsInfo, n: EventCounts) {
    && c1.added == (c.added + n.added) % TWO_TO_THE_64
    && c1.modified == (c.modified + n.modified) % TWO_TO_THE_64
    && c1.deleted == (c.deleted + n.deleted) % TWO_TO_THE_64
    && c1.cleaned == (c.cleaned + n.cleaned) % TWO_TO_THE_64
  }

  lemma GrownTwice(c: CachedObjectsInfo, c1: CachedObjectsInfo, c2: CachedObjectsInfo, m: EventCounts, n: EventCounts)
    requires Grown(c, c1, m) && Grown(c1, c2, n)
    ensures Grown(c, c2, Plus(m, n))
  {
    AddModulo(c.added, m.added, n.added);
    AddModulo(c.modified, m.modified, n.modified);
    AddModulo(c.deleted, m.deleted, n.deleted);
    AddModulo(c.cleaned, m.cleaned, n.cleaned);
  }

  lemma OperationGrows(c: CachedObjectsInfo, t: WatchEventType, cleaned: bool, count: u64)
    ensures Grown(c, CountOperation(c, t, cleaned).(count := count),
                  EventCounts(if t == Added then 1 else 0, if t == Modified then 1 else 0, if t == Deleted then 1 else 0,
                              if t == Deleted && cleaned then 1 else 0))
  {
  }

  lemma SectionCounts(cfg: MonitorConfig, w: World, s: Section)
    requires CanRun(w, s)
    ensures Grown(w.inf.total, Next(cfg, w, s).inf.total, CountsOf(cfg, w, s))
  {
    if s.UpdateCache? {
      var inf := Next(cfg, w, s).inf;
      assert inf == CacheUpdated(cfg, w.inf, s.t, s.obj, s.filtered);
      if Handles(w, s, s.t) {
        var count: u64 := |inf.cachedObjects| % TWO_TO_THE_64;
        OperationGrows(w.inf.total, s.t, count == 0, count);
      }
    }
  }

  /** Over every run each counter has grown by the number of watch events of its type, and of deletions that emptied the
      cache. */
  lemma {:induction false} CountersCountEvents(cfg: MonitorConfig, w: World, run: seq<Section>)
    requires CanRunAll(cfg, w, run)
    ensures Grown(w.inf.total, After(cfg, w, run).inf.total, CountsIn(cfg, w, run))
    decreases |run|
  {
    if run != [] {
      var w1 := Next(cfg, w, run[0]);
      SectionCounts(cfg, w, run[0]);
      CountersCountEvents(cfg, w1, run[1..]);
      GrownTwice(w.inf.total, w1.inf.total, After(cfg, w1, run[1..]).inf.total, CountsOf(cfg, w, run[0]), CountsIn(cfg, w1, run[1..]));
    }
  }

  // ---------------------------------------------------------------------
  // The informer itself

  /** The objects of an initial list by id, filtered; later items win. None if a filter fails. */
  function Listed(cfg: MonitorConfig, applyFilter: Object -> Option<Filtered>, items: seq<Object>): Option<Cache> {
    if items == [] then Some(map[])
    else
      var obj := items[|items| - 1];
      var before := Listed(cfg, applyFilter, items[..|items| - 1]);
      var res := Resolved(cfg, map[], Added, obj, applyFilter(obj));
      if before.None? || res.None? then None else Some(before.value[obj.id := res.value])
  }

  lemma {:induction false} ListedIsWellKeyed(cfg: MonitorConfig, applyFilter: Object -> Option<Filtered>, items: seq<Object>)
    requires Listed(cfg, applyFilter, items).Some?
    ensures WellKeyed(Listed(cfg, applyFilter, items).value)
  {
    if items != [] {
      ListedIsWellKeyed(cfg, applyFilter, items[..|items| - 1]);
    }
  }

  /** The list as watch events. */
  function AsAdds(applyFilter: Object -> Option<Filtered>, items: seq<Object>): seq<Section> {
    seq(|items|, i requires 0 <= i < |items| => UpdateCache(Added, items[i], applyFilter(items[i])))
  }

  /** The list is taken if and only if every filter succeeds. Then the cache is what watching each object being added
      would have left. */
  lemma {:induction false} ListedAsAdded(cfg: MonitorConfig, applyFilter: Object -> Option<Filtered>, items: seq<Object>)
    ensures Listed(cfg, applyFilter, items).Some? <==> forall obj :: obj in items ==> applyFilter(obj).Some?
    ensures Listed(cfg, applyFilter, items).Some? ==>
              HoldsLastOutcomes(cfg, map[], AsAdds(applyFilter, items), Listed(cfg, applyFilter, items).value)
  {
    if items != [] {
      var init, last := items[..|items| - 1], items[|items| - 1];
      assert items == init + [last];
      ListedAsAdded(cfg, applyFilter, init);
      if Listed(cfg, applyFilter, items).Some? {
        var s := UpdateCache(Added, last, applyFilter(last));
        UpdateFollowsObject(cfg, map[], AsAdds(applyFilter, init), Listed(cfg, applyFilter, init).value, s);
        assert AsAdds(applyFilter, items) == AsAdds(applyFilter, init) + [s];
      }
    }
  }

  lemma {:induction false} FailureIsFinal(cfg: MonitorConfig, applyFilter: Object -> Option<Filtered>, items: seq<Object>, n: nat)
    requires n <= |items| && Listed(cfg, applyFilter, items[..n]).None?
    ensures Listed(cfg, applyFilter, items).None?
    decreases |items| - n
  {
    if n < |items| {
      assert items[..n + 1][..n] == items[..n];
      FailureIsFinal(cfg, applyFilter, items, n + 1);
    } else {
      assert items[..n] == items;
    }
  }

  /** handleWatchEvent in one piece: the new fields, and what reaches the buffer or the callback. */
  lemma HandledEffect(cfg: MonitorConfig, w: World, t: WatchEventType, obj: Object, filtered: Option<Filtered>)
    requires AtRest(w) && Conserved(w)
    ensures
      var w1 := Called(cfg, w, HandleWatchEvent(t, obj, filtered));
      var e := FiredEvent(cfg, w.inf.cachedObjects, t, obj, filtered);
      var events := if e.None? then [] else [e.value];
      && w1.inf == CacheUpdated(cfg, w.inf, t, obj, filtered).(
                     eventBuf := if w.inf.eventCbEnabled then w.inf.eventBuf else w.inf.eventBuf + events)
      && Delivered(w1) == (if w.inf.eventCbEnabled then Delivered(w) + events else Delivered(w))
  {
    var w1 := Next(cfg, w, UpdateCache(t, obj, filtered));
    assert w.inf.eventBuf + [] == w.inf.eventBuf && Delivered(w) + [] == Delivered(w);
    if !w1.hand.Idle? {
      assert w.replayed + (w.live + [w1.hand.event]) == Delivered(w) + [w1.hand.event];
    }
  }

  class ResourceInformer {
    const cfg: MonitorConfig
    const applyFilter: Object -> Option<Filtered>
    var cachedObjects: Cache
    var cachedObjectsInfo: CachedObjectsInfo
    var cachedObjectsIncrement: CachedObjectsInfo
    var eventBuf: seq<KubeEvent>
    var eventCbEnabled: bool
    var stopped: bool
    /** The events passed to eventCb, in order. */
    var sent: seq<KubeEvent>
    /** The history of the informer, whose current fields it repeats. */
    ghost var world: World

    /** The fields agree with the history, and the history is sound: with every event type subscribed,
        the last locked snapshot, `sent` and `eventBuf` give the cache. */
    ghost predicate Valid()
      reads this
    {
      && world.inf == Informer(cachedObjects, eventBuf, eventCbEnabled, cachedObjectsInfo, cachedObjectsIncrement)
      && sent == Delivered(world)
      && Sound(cfg, world)
    }

    constructor (cfg: MonitorConfig, applyFilter: Object -> Option<Filtered>)
      ensures this.cfg == cfg && this.applyFilter == applyFilter
      ensures Valid() && world == Loaded(map[])
    {
      this.cfg, this.applyFilter := cfg, applyFilter;
      cachedObjects, eventBuf, eventCbEnabled, stopped, sent := map[], [], false, false, [];
      cachedObjectsInfo, cachedObjectsIncrement := NO_OPERATIONS, NO_OPERATIONS;
      world := Loaded(map[]);
      new;
      LoadedIsSound(cfg, map[]);
    }

    /** loadExistedObjects, on the items of the initial list. */
    method LoadExistedObjects(items: seq<Object>) returns (ok: bool)
      requires Valid() && world == Loaded(map[])
      modifies this
      ensures Valid()
      ensures ok == Listed(cfg, applyFilter, items).Some?
      ensures world == if ok then Loaded(Listed(cfg, applyFilter, items).value) else Loaded(map[])
    {
      if |items| == 0 {
        return true;
      }
      var listed := FilterObjects(items);
      if listed.None? {
        return false;
      }
      var filteredObjects := listed.value;
      cachedObjects := cachedObjects + filteredObjects;
      assert cachedObjects == filteredObjects;
      cachedObjectsInfo := cachedObjectsInfo.(count := |cachedObjects| % TWO_TO_THE_64);
      world := Loaded(filteredObjects);
      ListedIsWellKeyed(cfg, applyFilter, items);
      LoadedIsSound(cfg, filteredObjects);
      ok := true;
    }

    /** The loop over the listed items. */
    method FilterObjects(items: seq<Object>) returns (r: Option<Cache>)
      ensures r == Listed(cfg, applyFilter, items)
    {
      var filteredObjects: Cache := map[];
      for i := 0 to |items|
        invariant Listed(cfg, applyFilter, items[..i]) == Some(filteredObjects)
      {
        var item := items[i];
        assert items[..i + 1][..i] == items[..i];
        var objFilterRes := Resolved(cfg, map[], Added, item, applyFilter(item));
        if objFilterRes.None? {
          FailureIsFinal(cfg, applyFilter, items, i + 1);
          return None;
        }
        filteredObjects := filteredObjects[item.id := objFilterRes.value];
      }
      assert items[..|items|] == items;
      r := Some(filteredObjects);
    }

    method HandleWatchEvent(obj: Object, t: WatchEventType)
      requires Valid()
      modifies this
      ensures Valid()
      ensures stopped == old(stopped)
      ensures world == if stopped then old(world) else Called(cfg, old(world), Call.HandleWatchEvent(t, obj, applyFilter(obj)))
    {
      if stopped {
        return;
      }
      var filtered := applyFilter(obj);
      CallKeepsSound(cfg, world, Call.HandleWatchEvent(t, obj, filtered));
      HandledEffect(cfg, world, t, obj, filtered);
      HandleFiltered(obj, t, filtered);
      world := Called(cfg, world, Call.HandleWatchEvent(t, obj, filtered));
    }

    /** The body of handleWatchEvent behind the filter. */
    method HandleFiltered(obj: Object, t: WatchEventType, filtered: Option<Filtered>)
      modifies `cachedObjects, `cachedObjectsInfo, `cachedObjectsIncrement, `eventBuf, `sent
      ensures
        var inf := old(Informer(cachedObjects, eventBuf, eventCbEnabled, cachedObjectsInfo, cachedObjectsIncrement));
        var e := FiredEvent(cfg, inf.cachedObjects, t, obj, filtered);
        var events := if e.None? then [] else [e.value];
        && Informer(cachedObjects, eventBuf, eventCbEnabled, cachedObjectsInfo, cachedObjectsIncrement)
           == CacheUpdated(cfg, inf, t, obj, filtered).(eventBuf := if eventCbEnabled then inf.eventBuf else inf.eventBuf + events)
        && sent == if eventCbEnabled then old(sent) + events else old(sent)
    {
      ghost var cache := cachedObjects;
      assert eventBuf + [] == eventBuf && sent + [] == sent;
      var resolved := ResolveObject(obj, t, filtered);
      if resolved.None? {
        return;
      }
      var res := resolved.value;
      var skipEvent := UpdateCachedObject(obj.id, res, t);
      if skipEvent {
        assert FiredEvent(cfg, cache, t, obj, filtered).None?;
        return;
      }
      if t in cfg.eventTypes {
        assert FiredEvent(cfg, cache, t, obj, filtered) == Some(KubeEvent(t, res));
        FireEvent(KubeEvent(t, res));
      }
    }

    /** The filter result, or for a deletion with a failing filter the cached one. */
    method ResolveObject(obj: Object, t: WatchEventType, filtered: Option<Filtered>) returns (res: Option<ObjectAndFilterResult>)
      ensures res == Resolved(cfg, cachedObjects, t, obj, filtered)
    {
      if filtered.None? && (t != Deleted || obj.id !in cachedObjects) {
        return None;
      }
      var full :=
        if filtered.Some? then ObjectAndFilterResult(obj.id, filtered.value.checksum, filtered.value.filterResult, Some(obj), false)
        else cachedObjects[obj.id].(fullObject := Some(obj));
      if !cfg.keepFullObjectsInMemory {
        full := full.(fullObject := None, removeObject := true);
      }
      res := Some(full);
    }

    /** The end of handleWatchEvent: call eventCb, or save the event for later. */
    method FireEvent(kubeEvent: KubeEvent)
      modifies `sent, `eventBuf
      ensures sent == if eventCbEnabled then old(sent) + [kubeEvent] else old(sent)
      ensures eventBuf == if eventCbEnabled then old(eventBuf) else old(eventBuf) + [kubeEvent]
    {
      if eventCbEnabled {
        sent := sent + [kubeEvent];
      } else {
        eventBuf := eventBuf + [kubeEvent];
      }
    }

    /** The switch over the event type in handleWatchEvent, under the cache lock. */
    method UpdateCachedObject(id: string, res: ObjectAndFilterResult, t: WatchEventType) returns (skipEvent: bool)
      modifies `cachedObjects, `cachedObjectsInfo, `cachedObjectsIncrement
      ensures cachedObjects == if t == Deleted then old(cachedObjects) - {id} else old(cachedObjects)[id := res]
      ensures skipEvent <==> t != Deleted && id in old(cachedObjects) && old(cachedObjects)[id].checksum == res.checksum
      ensures
        var before := Informer(cachedObjects, eventBuf, eventCbEnabled, old(cachedObjectsInfo), old(cachedObjectsIncrement));
        Informer(cachedObjects, eventBuf, eventCbEnabled, cachedObjectsInfo, cachedObjectsIncrement) == Counted(before, t, false)
    {
      skipEvent := false;
      if t != Deleted {
        skipEvent := id in cachedObjects && cachedObjects[id].checksum == res.checksum;
        cachedObjects := cachedObjects[id := res];
      } else {
        cachedObjects := cachedObjects - {id};
      }
      var count: u64 := |cachedObjects| % TWO_TO_THE_64;
      cachedObjectsInfo := CountOperation(cachedObjectsInfo, t, count == 0).(count := count);
      cachedObjectsIncrement := CountOperation(cachedObjectsIncrement, t, count == 0);
    }

    /** getCachedObjects; the order of the result is that of the map iteration. */
    method GetCachedObjects() returns (res: seq<ObjectAndFilterResult>)
      requires Valid()
      modifies this
      ensures Valid()
      ensures world == Called(cfg, old(world), Call.GetCachedObjects)
      ensures |res| == |cachedObjects| && cachedObjects == old(cachedObjects)
      ensures forall id :: id in cachedObjects ==> cachedObjects[id] in res
      ensures !eventCbEnabled ==> eventBuf == [] && world.base == ChecksumsOf(cachedObjects)
    {
      res := [];
      var todo := cachedObjects.Keys;
      while todo != {}
        invariant todo <= cachedObjects.Keys
        invariant |res| + |todo| == |cachedObjects|
        invariant forall id :: id in cachedObjects && id !in todo ==> cachedObjects[id] in res
        decreases |todo|
      {
        var id :| id in todo;
        res := res + [cachedObjects[id]];
        todo := todo - {id};
      }
      CallKeepsSound(cfg, world, Call.GetCachedObjects);
      world := Called(cfg, world, Call.GetCachedObjects);
      if !eventCbEnabled {
        eventBuf := [];
      }
    }

    method EnableKubeEventCb()
      requires Valid()
      modifies this
      ensures Valid() && eventCbEnabled && eventBuf == []
      ensures world == Called(cfg, old(world), Call.EnableKubeEventCb)
      ensures sent == old(sent) + (if old(eventCbEnabled) then [] else old(eventBuf))
    {
      CallKeepsSound(cfg, world, Call.EnableKubeEventCb);
      world := Called(cfg, world, Call.EnableKubeEventCb);
      if eventCbEnabled {
        return;
      }
      eventCbEnabled := true;
      ReplayBuffer();
    }

    /** Pass the saved events on and clear the buffer. */
    method ReplayBuffer()
      modifies `sent, `eventBuf
      ensures sent == old(sent) + old(eventBuf) && eventBuf == []
    {
      for i := 0 to |eventBuf|
        invariant unchanged(`eventBuf) && sent == old(sent) + eventBuf[..i]
      {
        sent := sent + [eventBuf[i]];
      }
      eventBuf := [];
    }

    method GetCachedObjectsInfoIncrement() returns (info: CachedObjectsInfo)
      requires Valid()
      modifies this
      ensures Valid()
      ensures info == old(cachedObjectsIncrement) && cachedObjectsIncrement == NO_OPERATIONS
      ensures world == Called(cfg, old(world), Call.GetCachedObjectsInfoIncrement)
    {
      CallKeepsSound(cfg, world, Call.GetCachedObjectsInfoIncrement);
      world := Called(cfg, world, Call.GetCachedObjectsInfoIncrement);
      info := cachedObjectsIncrement;
      cachedObjectsIncrement := NO_OPERATIONS;
    }
  }
}
