/** pkg/hook/controller/kubernetes_bindings_controller.go and the monitor index of
    pkg/kube_events_manager/kube_events_manager.go: each kubernetes binding of a hook gets a monitor, and
    enabling again repairs what failed or was lost.

    A monitor config is a pointer that bindings, links and monitors share; here it is the entry for its
    monitor id in a table. Whether CreateInformers fails is a parameter of each call of AddMonitor. */
module KubernetesBindings {
  import opened Common
  import opened HookConfigV1
  import opened HookController

  type MonitorId = string

  /** `kindLabel` is the metric label "kind". */
  datatype MonitorConfig = MonitorConfig(kind: string, apiVersion: string, kindLabel: string)

  /** An indexed monitor: its informers were created for the kind that the config had then. */
  datatype Monitor = Monitor(kind: string, apiVersion: string, started: bool, unlocked: bool)

  datatype OnKubernetesEventConfig = OnKubernetesEventConfig(
    bindingName: string,
    monitorId: MonitorId,
    includeSnapshotsFrom: seq<string>,
    allowFailure: bool,
    executeHookOnSynchronization: bool,
    queue: string,
    group: string)

  datatype Link = Link(monitorId: MonitorId, bindingConfig: OnKubernetesEventConfig)

  /** The objects of an Event, nil for a Synchronization before its snapshots are updated. */
  datatype KubeEvent = KubeEvent(monitorId: MonitorId, eventType: KubeEventType, watchEvents: seq<string>, objects: Option<ObjectList>)

  datatype BindingExecutionInfo = BindingExecutionInfo(
    bindingContext: seq<BindingContext>,
    includeSnapshots: seq<string>,
    allowFailure: bool,
    queueName: string,
    binding: string,
    group: string,
    kubernetesBinding: Option<OnKubernetesEventConfig>)

  /** The links of one hook and the manager's index of monitors. Beside them: the ids of all monitors ever
      added; the monitors that were replaced in the index while they ran, which nobody can stop any more; and
      the events sent by UpdateMonitor. */
  datatype World = World(
    configs: map<MonitorId, MonitorConfig>,
    links: map<MonitorId, Link>,
    monitors: map<MonitorId, Monitor>,
    added: seq<MonitorId>,
    orphans: seq<Monitor>,
    emitted: seq<KubeEvent>)

  type Bindings = seq<OnKubernetesEventConfig>

  function ConfigOf(w: World, id: MonitorId): MonitorConfig {
    if id in w.configs then w.configs[id] else MonitorConfig("", "", "")
  }

  // ---------------------------------------------------------------------
  // Events and execution infos

  /** ConvertKubeEventToBindingContext */
  function ContextsOf(ev: KubeEvent, b: OnKubernetesEventConfig): seq<BindingContext> {
    match ev.eventType
    case Synchronization => [BindingContext(b.bindingName, OnKubernetesEvent, b.group, Synchronization, "", ev.objects, map[])]
    case Event =>
      seq(|ev.watchEvents|, i requires 0 <= i < |ev.watchEvents| =>
          BindingContext(b.bindingName, OnKubernetesEvent, b.group, Event, ev.watchEvents[i], ev.objects, map[]))
    case NoKubeEvent => []
  }

  function InfoOf(ev: KubeEvent, b: OnKubernetesEventConfig): BindingExecutionInfo {
    BindingExecutionInfo(ContextsOf(ev, b), b.includeSnapshotsFrom, b.allowFailure, b.queue, b.bindingName, b.group, Some(b))
  }

  /** HandleEvent: an unknown monitor id gives an empty info. */
  function Handled(links: map<MonitorId, Link>, ev: KubeEvent): BindingExecutionInfo {
    if ev.monitorId in links then InfoOf(ev, links[ev.monitorId].bindingConfig)
    else BindingExecutionInfo([], [], false, "", "", "", None)
  }

  function SynchronizationFor(links: map<MonitorId, Link>, id: MonitorId): BindingExecutionInfo {
    Handled(links, KubeEvent(id, Synchronization, [], None))
  }

  // ---------------------------------------------------------------------
  // Monitors

  function AddedMonitor(w: World, id: MonitorId): (r: World)
    ensures id in r.monitors
  {
    var c := ConfigOf(w, id);
    w.(monitors := w.monitors[id := Monitor(c.kind, c.apiVersion, false, false)],
       added := w.added + [id],
       orphans := if id in w.monitors then w.orphans + [w.monitors[id]] else w.orphans)
  }

  function StartedMonitor(w: World, id: MonitorId): (r: World)
    requires id in w.monitors
    ensures id in r.monitors
  {
    w.(monitors := w.monitors[id := w.monitors[id].(started := true)])
  }

  function UnlockedMonitor(w: World, id: MonitorId): World
    requires id in w.monitors
  {
    w.(monitors := w.monitors[id := w.monitors[id].(unlocked := true)])
  }

  function StoppedMonitor(w: World, id: MonitorId): World {
    w.(monitors := w.monitors - {id})
  }

  // ---------------------------------------------------------------------
  // EnableKubernetesBindings

  /** The link and the monitor are there. */
  predicate Enabled(w: World, id: MonitorId) {
    id in w.links && id in w.monitors
  }

  /** A monitor, started, and a link for one binding. */
  function WithMonitor(w: World, b: OnKubernetesEventConfig): World {
    var w1 := AddedMonitor(w, b.monitorId);
    StartedMonitor(w1.(links := w1.links[b.monitorId := Link(b.monitorId, b)]), b.monitorId)
  }

  /** What the loop has done; when it failed it has stopped. */
  datatype Outcome = Outcome(world: World, infos: seq<BindingExecutionInfo>, failed: bool)

  /** One round of the loop. */
  function EnabledNext(r: Outcome, b: OnKubernetesEventConfig, addFails: bool): Outcome {
    if r.failed then r
    else if Enabled(r.world, b.monitorId) then
      Outcome(r.world, r.infos + [SynchronizationFor(r.world.links, b.monitorId)], false)
    else if addFails then Outcome(r.world, [], true)
    else
      var w1 := WithMonitor(r.world, b);
      Outcome(w1, r.infos + [SynchronizationFor(w1.links, b.monitorId)], false)
  }

  /** `fails` are the numbers of the bindings for which AddMonitor would fail. */
  function EnabledAll(w: World, bs: Bindings, fails: set<nat>): Outcome {
    if bs == [] then Outcome(w, [], false)
    else
      var n := |bs| - 1;
      EnabledNext(EnabledAll(w, bs[..n], fails), bs[n], n in fails)
  }

  /** Nothing was taken back: what had a link and a monitor is as it was. */
  predicate Kept(w: World, w': World) {
    && w'.configs == w.configs && w'.emitted == w.emitted && w.added <= w'.added
    && w.links.Keys <= w'.links.Keys && w.monitors.Keys <= w'.monitors.Keys
    && forall id :: id in w.links && id in w.monitors ==> w'.links[id] == w.links[id] && w'.monitors[id] == w.monitors[id]
  }

  lemma {:induction false} EnableTakesNothingBack(w: World, bs: Bindings, fails: set<nat>)
    ensures Kept(w, EnabledAll(w, bs, fails).world)
  {
    if bs != [] {
      EnableTakesNothingBack(w, bs[..|bs| - 1], fails);
    }
  }

  /** The bindings have their monitor and their Synchronization info. */
  ghost predicate Served(w: World, bs: Bindings, infos: seq<BindingExecutionInfo>) {
    && |infos| == |bs|
    && forall i :: 0 <= i < |bs| ==>
         Enabled(w, bs[i].monitorId) && infos[i] == SynchronizationFor(w.links, bs[i].monitorId)
  }

  ghost predicate AllServedOrFailed(r: Outcome, bs: Bindings) {
    if r.failed then r.infos == [] else Served(r.world, bs, r.infos)
  }

  /** From any combination of links and monitors, success means that every binding has a link and an indexed
      monitor, and that there is one Synchronization info for each binding, in order. */
  lemma {:induction false} SuccessServesEveryBinding(w: World, bs: Bindings, fails: set<nat>)
    ensures AllServedOrFailed(EnabledAll(w, bs, fails), bs)
  {
    if bs != [] {
      var n := |bs| - 1;
      SuccessServesEveryBinding(w, bs[..n], fails);
      ServedNext(EnabledAll(w, bs[..n], fails), bs[..n], bs[n], n in fails);
      assert bs == bs[..n] + [bs[n]];
    }
  }

  lemma ServedNext(r: Outcome, bs: Bindings, b: OnKubernetesEventConfig, addFails: bool)
    requires AllServedOrFailed(r, bs)
    ensures AllServedOrFailed(EnabledNext(r, b, addFails), bs + [b])
  {
  }

  lemma {:induction false} ServedStays(w: World, bs: Bindings, infos: seq<BindingExecutionInfo>, fails: set<nat>)
    requires Served(w, bs, infos)
    ensures EnabledAll(w, bs, fails) == Outcome(w, infos, false)
  {
    if bs == [] {
      assert infos == [];
    } else {
      var n := |bs| - 1;
      assert infos == infos[..n] + [infos[n]];
      ServedStays(w, bs[..n], infos[..n], fails);
    }
  }

  /** An immediate repeat adds no monitor, changes nothing and gives the same infos, whether AddMonitor would
      fail or not. */
  lemma RepeatAddsNothing(w: World, bs: Bindings, fails: set<nat>, fails': set<nat>)
    requires !EnabledAll(w, bs, fails).failed
    ensures EnabledAll(EnabledAll(w, bs, fails).world, bs, fails') == EnabledAll(w, bs, fails)
  {
    var r := EnabledAll(w, bs, fails);
    SuccessServesEveryBinding(w, bs, fails);
    ServedStays(r.world, bs, r.infos, fails');
  }

  // ---------------------------------------------------------------------
  // Exactly which monitors are added

  /** Monitor ids are generated, so no two bindings share one. */
  predicate DistinctIds(bs: Bindings) {
    forall i, j :: 0 <= i < j < |bs| ==> bs[i].monitorId != bs[j].monitorId
  }

  /** The ids of the bindings that lack a link or a monitor. */
  function Missing(w: World, bs: Bindings): seq<MonitorId> {
    if bs == [] then []
    else
      var n := |bs| - 1;
      Missing(w, bs[..n]) + (if Enabled(w, bs[n].monitorId) then [] else [bs[n].monitorId])
  }

  /** AddMonitor fails for a binding that needs it. */
  ghost predicate SomeAddFails(w: World, bs: Bindings, fails: set<nat>) {
    exists i :: 0 <= i < |bs| && i in fails && !Enabled(w, bs[i].monitorId)
  }

  lemma SomeAddFailsSnoc(w: World, bs: Bindings, fails: set<nat>)
    requires bs != []
    ensures
      var n := |bs| - 1;
      SomeAddFails(w, bs, fails) <==> SomeAddFails(w, bs[..n], fails) || (n in fails && !Enabled(w, bs[n].monitorId))
  {
    var n := |bs| - 1;
    if SomeAddFails(w, bs[..n], fails) {
      var i :| 0 <= i < n && i in fails && !Enabled(w, bs[..n][i].monitorId);
      assert i in fails && !Enabled(w, bs[i].monitorId);
    }
    if i :| 0 <= i < |bs| && i in fails && !Enabled(w, bs[i].monitorId) {
      if i < n {
        assert bs[..n][i] == bs[i];
      }
    }
  }

  lemma {:induction false} OthersUntouched(w: World, bs: Bindings, fails: set<nat>, id: MonitorId)
    requires forall i :: 0 <= i < |bs| ==> bs[i].monitorId != id
    ensures
      var r := EnabledAll(w, bs, fails).world;
      && (id in r.links <==> id in w.links) && (id in w.links ==> r.links[id] == w.links[id])
      && (id in r.monitors <==> id in w.monitors) && (id in w.monitors ==> r.monitors[id] == w.monitors[id])
  {
    if bs != [] {
      OthersUntouched(w, bs[..|bs| - 1], fails, id);
    }
  }

  /** Enabling fails if and only if AddMonitor fails for a binding that lacks its link or monitor. Otherwise it
      adds exactly one monitor for each of these, in order, and none for the others. */
  lemma {:induction false} EnableAddsMissing(w: World, bs: Bindings, fails: set<nat>)
    requires DistinctIds(bs)
    ensures EnabledAll(w, bs, fails).failed <==> SomeAddFails(w, bs, fails)
    ensures !EnabledAll(w, bs, fails).failed ==> EnabledAll(w, bs, fails).world.added == w.added + Missing(w, bs)
  {
    if bs == [] {
      assert w.added == w.added + [];
    } else {
      var n := |bs| - 1;
      var id := bs[n].monitorId;
      EnableAddsMissing(w, bs[..n], fails);
      SomeAddFailsSnoc(w, bs, fails);
      OthersUntouched(w, bs[..n], fails, id);
      assert w.added + (Missing(w, bs[..n]) + [id]) == (w.added + Missing(w, bs[..n])) + [id];
      assert Missing(w, bs[..n]) + [] == Missing(w, bs[..n]);
    }
  }

  lemma {:induction false} ConfigsStay(w: World, bs: Bindings, fails: set<nat>)
    ensures EnabledAll(w, bs, fails).world.configs == w.configs
  {
    if bs != [] {
      ConfigsStay(w, bs[..|bs| - 1], fails);
    }
  }

  /** A binding without a monitor gets one of the config's current kind. */
  lemma {:induction false} NewMonitorHasCurrentKind(w: World, bs: Bindings, fails: set<nat>, i: nat)
    requires DistinctIds(bs) && i < |bs| && !Enabled(w, bs[i].monitorId)
    requires !EnabledAll(w, bs, fails).failed
    ensures
      var id := bs[i].monitorId;
      var r := EnabledAll(w, bs, fails).world;
      id in r.monitors && r.monitors[id] == Monitor(ConfigOf(w, id).kind, ConfigOf(w, id).apiVersion, true, false)
  {
    var n := |bs| - 1;
    var prev := EnabledAll(w, bs[..n], fails);
    if i < n {
      NewMonitorHasCurrentKind(w, bs[..n], fails, i);
      OtherMonitorStays(prev, bs[n], n in fails, bs[i].monitorId);
    } else {
      ConfigsStay(w, bs[..n], fails);
      OthersUntouched(w, bs[..n], fails, bs[n].monitorId);
      AddedHasCurrentKind(prev, bs[n], n in fails);
    }
  }

  lemma OtherMonitorStays(r: Outcome, b: OnKubernetesEventConfig, addFails: bool, id: MonitorId)
    requires id != b.monitorId && id in r.world.monitors
    ensures id in EnabledNext(r, b, addFails).world.monitors
    ensures EnabledNext(r, b, addFails).world.monitors[id] == r.world.monitors[id]
  {
  }

  lemma AddedHasCurrentKind(r: Outcome, b: OnKubernetesEventConfig, addFails: bool)
    requires !EnabledNext(r, b, addFails).failed && !Enabled(r.world, b.monitorId)
    ensures
      var w, c := EnabledNext(r, b, addFails).world, ConfigOf(r.world, b.monitorId);
      b.monitorId in w.monitors && w.monitors[b.monitorId] == Monitor(c.kind, c.apiVersion, true, false)
  {
  }

  // ---------------------------------------------------------------------
  // DisableKubernetesBindings and UpdateMonitor

  /** Disable drops the links under the lock. */
  function Unlinked(w: World): World {
    w.(links := map[])
  }

  /** Then it stops their monitors. */
  function StoppedAll(w: World, ids: set<MonitorId>): World {
    w.(monitors := w.monitors - ids)
  }

  function Retyped(w: World, id: MonitorId, kind: string, apiVersion: string): World {
    var c := ConfigOf(w, id);
    if c.kind == kind && c.apiVersion == apiVersion then w
    else w.(configs := w.configs[id := MonitorConfig(kind, apiVersion, kind)])
  }

  /** UpdateMonitor */
  function Updated(w: World, id: MonitorId, kind: string, apiVersion: string, ok: bool): World {
    if id !in w.links then w
    else
      var w1 := Retyped(StoppedMonitor(w, id), id, kind, apiVersion);
      if !ok then w1
      else
        var w2 := AddedMonitor(w1, id);
        UnlockedMonitor(StartedMonitor(w2.(emitted := w2.emitted + [KubeEvent(id, Event, ["Added"], None)]), id), id)
  }

  /** A successful UpdateMonitor of a linked monitor replaces it by a running, unlocked one of the new kind,
      leaves no orphan, and sends one Added event. */
  lemma UpdateReplaces(w: World, id: MonitorId, kind: string, apiVersion: string)
    requires id in w.links
    ensures
      var r := Updated(w, id, kind, apiVersion, true);
      && r.monitors == w.monitors[id := Monitor(kind, apiVersion, true, true)]
      && r.orphans == w.orphans && r.added == w.added + [id] && r.links == w.links
      && r.emitted == w.emitted + [KubeEvent(id, Event, ["Added"], None)]
  {
  }

  /** A failing one stops the monitor and keeps the link. The config has the new kind in both cases, and the configs of
      others are as they were. */
  lemma UpdateFailureAndConfig(w: World, id: MonitorId, kind: string, apiVersion: string, ok: bool)
    requires id in w.links
    ensures
      var r := Updated(w, id, kind, apiVersion, ok);
      && (!ok ==> r.monitors == w.monitors - {id} && r.links == w.links && r.orphans == w.orphans && r.added == w.added && r.emitted == w.emitted)
      && ConfigOf(r, id).kind == kind && ConfigOf(r, id).apiVersion == apiVersion
      && (forall other :: other != id ==> ConfigOf(r, other) == ConfigOf(w, other))
  {
  }

  // ---------------------------------------------------------------------
  // Runs

  datatype Call =
    | Enable(fails: set<nat>)
    | Disable
    | UpdateMonitor(id: MonitorId, kind: string, apiVersion: string, ok: bool)
    | StopMonitor(id: MonitorId)

  function Next(bs: Bindings, w: World, c: Call): World {
    match c
    case Enable(fails) => EnabledAll(w, bs, fails).world
    case Disable => StoppedAll(Unlinked(w), w.links.Keys)
    case UpdateMonitor(id, kind, apiVersion, ok) => Updated(w, id, kind, apiVersion, ok)
    case StopMonitor(id) => StoppedMonitor(w, id)
  }

  function After(bs: Bindings, w: World, run: seq<Call>): World {
    if run == [] then w else Next(bs, After(bs, w, run[..|run| - 1]), run[|run| - 1])
  }

  /** Links belong to configured bindings; monitors in the index run and have a link; no monitor runs outside
      of the index. */
  ghost predicate Inv(bs: Bindings, w: World) {
    && (forall id :: id in w.links ==> w.links[id].bindingConfig in bs && w.links[id].bindingConfig.monitorId == id)
    && (forall id :: id in w.monitors ==> id in w.links && w.monitors[id].started)
    && w.orphans == []
  }

  lemma {:induction false} EnableKeepsInv(all: Bindings, w: World, bs: Bindings, fails: set<nat>)
    requires Inv(all, w) && forall b :: b in bs ==> b in all
    ensures Inv(all, EnabledAll(w, bs, fails).world)
  {
    if bs != [] {
      EnableKeepsInv(all, w, bs[..|bs| - 1], fails);
      assert bs[|bs| - 1] in bs;
    }
  }

  lemma UpdateKeepsInv(bs: Bindings, w: World, id: MonitorId, kind: string, apiVersion: string, ok: bool)
    requires Inv(bs, w)
    ensures Inv(bs, Updated(w, id, kind, apiVersion, ok))
  {
  }

  lemma CallKeepsInv(bs: Bindings, w: World, c: Call)
    requires Inv(bs, w)
    ensures Inv(bs, Next(bs, w, c))
  {
    match c
    case Enable(fails) => EnableKeepsInv(bs, w, bs, fails);
    case Disable =>
    case UpdateMonitor(id, kind, apiVersion, ok) => UpdateKeepsInv(bs, w, id, kind, apiVersion, ok);
    case StopMonitor(_) =>
  }

  /** Over every run of calls, failing or not, with monitors stopped by others in between, no monitor is left
      running outside of the index. */
  lemma {:induction false} RunKeepsInv(bs: Bindings, w: World, run: seq<Call>)
    requires Inv(bs, w)
    ensures Inv(bs, After(bs, w, run))
  {
    if run != [] {
      var w1, c := After(bs, w, run[..|run| - 1]), run[|run| - 1];
      RunKeepsInv(bs, w, run[..|run| - 1]);
      CallKeepsInv(bs, w1, c);
    }
  }

  /** After any run of calls, Disable leaves no link and no monitor, running or not. */
  lemma DisableLeavesNothing(bs: Bindings, w: World, run: seq<Call>)
    requires Inv(bs, w)
    ensures
      var r := After(bs, w, run + [Disable]);
      r.links == map[] && r.monitors == map[] && r.orphans == []
  {
    RunKeepsInv(bs, w, run);
    assert (run + [Disable])[..|run|] == run;
    assert After(bs, w, run).monitors.Keys <= After(bs, w, run).links.Keys;
  }

  /** With distinct ids a link holds the very binding it is for. */
  lemma LinkIsOwn(bs: Bindings, w: World, i: nat)
    requires Inv(bs, w) && DistinctIds(bs) && i < |bs| && bs[i].monitorId in w.links
    ensures w.links[bs[i].monitorId].bindingConfig == bs[i]
  {
    var j :| 0 <= j < |bs| && bs[j] == w.links[bs[i].monitorId].bindingConfig;
  }

  /** After any run of calls, an event of a linked monitor is handled for the binding of this monitor, with its settings
      and one context for each watch event, in order, or one for a Synchronization; an event of any other monitor
      gives no context. */
  lemma EventReachesItsBinding(bs: Bindings, w: World, run: seq<Call>, ev: KubeEvent)
    requires Inv(bs, w) && DistinctIds(bs)
    ensures
      var links, info := After(bs, w, run).links, Handled(After(bs, w, run).links, ev);
      && (ev.monitorId !in links ==> info.bindingContext == [] && info.kubernetesBinding == None && !info.allowFailure)
      && forall i :: 0 <= i < |bs| && bs[i].monitorId == ev.monitorId && ev.monitorId in links ==>
           && info.kubernetesBinding == Some(bs[i]) && info.binding == bs[i].bindingName && info.group == bs[i].group
           && info.allowFailure == bs[i].allowFailure && info.queueName == bs[i].queue
           && info.includeSnapshots == bs[i].includeSnapshotsFrom
           && IsConverted(info.bindingContext, ev, bs[i].bindingName, bs[i].group)
  {
    var w1 := After(bs, w, run);
    RunKeepsInv(bs, w, run);
    forall i | 0 <= i < |bs| && bs[i].monitorId == ev.monitorId && ev.monitorId in w1.links
      ensures w1.links[ev.monitorId].bindingConfig == bs[i]
    {
      LinkIsOwn(bs, w1, i);
    }
  }

  /** One context for a Synchronization, one for each watch event of an Event, all of the binding and with the objects of the event. */
  predicate IsConverted(contexts: seq<BindingContext>, ev: KubeEvent, binding: string, group: string) {
    && |contexts| == (if ev.eventType == Synchronization then 1 else if ev.eventType == Event then |ev.watchEvents| else 0)
    && forall k :: 0 <= k < |contexts| ==>
         && contexts[k].binding == binding && contexts[k].group == group
         && contexts[k].bindingType == OnKubernetesEvent && contexts[k].kubeEventType == ev.eventType
         && (ev.eventType == Event ==> contexts[k].payload == ev.watchEvents[k])
         && contexts[k].snapshots == map[] && contexts[k].objects == ev.objects
  }

  /** After any run of calls, a successful Enable gives each binding a running monitor and its own
      Synchronization info. */
  lemma EnableHeals(bs: Bindings, w: World, run: seq<Call>, fails: set<nat>, i: nat)
    requires Inv(bs, w) && DistinctIds(bs) && i < |bs|
    requires !EnabledAll(After(bs, w, run), bs, fails).failed
    ensures
      var r := EnabledAll(After(bs, w, run), bs, fails);
      var id := bs[i].monitorId;
      && id in r.world.monitors && r.world.monitors[id].started && r.world.orphans == []
      && |r.infos| == |bs| && r.infos[i] == InfoOf(KubeEvent(id, Synchronization, [], None), bs[i])
  {
    var w1 := After(bs, w, run);
    RunKeepsInv(bs, w, run);
    EnableKeepsInv(bs, w1, bs, fails);
    SuccessServesEveryBinding(w1, bs, fails);
    LinkIsOwn(bs, EnabledAll(w1, bs, fails).world, i);
  }

  /** A failed UpdateMonitor leaves the binding without a monitor; the next successful Enable gives it one of
      the new kind, locked until its Synchronization is done. */
  lemma FailedUpdateIsRepaired(bs: Bindings, w: World, i: nat, kind: string, apiVersion: string, fails: set<nat>)
    requires DistinctIds(bs) && i < |bs| && bs[i].monitorId in w.links
    requires !EnabledAll(Updated(w, bs[i].monitorId, kind, apiVersion, false), bs, fails).failed
    ensures
      var id := bs[i].monitorId;
      var w1 := Updated(w, id, kind, apiVersion, false);
      var r := EnabledAll(w1, bs, fails).world;
      id !in w1.monitors && id in r.monitors && r.monitors[id] == Monitor(kind, apiVersion, true, false)
  {
    NewMonitorHasCurrentKind(Updated(w, bs[i].monitorId, kind, apiVersion, false), bs, fails, i);
  }

  // ---------------------------------------------------------------------
  // A monitor without a link

  /** A binding has a monitor that Enable would replace while it runs. */
  predicate Unprotected(w: World, b: OnKubernetesEventConfig) {
    b.monitorId in w.monitors && b.monitorId !in w.links
  }

  /** Enable comes to such a binding before, and without, a failure. */
  ghost predicate Replaces(w: World, bs: Bindings, fails: set<nat>) {
    exists i: nat :: i < |bs| && Unprotected(w, bs[i]) && !SomeAddFails(w, bs[..i + 1], fails)
  }

  lemma ReplacesSnoc(w: World, bs: Bindings, fails: set<nat>)
    requires bs != []
    ensures
      var n := |bs| - 1;
      Replaces(w, bs, fails) <==> Replaces(w, bs[..n], fails) || (Unprotected(w, bs[n]) && !SomeAddFails(w, bs, fails))
  {
    var n := |bs| - 1;
    forall i: nat | i < n
      ensures bs[..n][i] == bs[i] && bs[..n][..i + 1] == bs[..i + 1]
    {
    }
    assert bs[..n + 1] == bs;
    if Replaces(w, bs[..n], fails) {
      var i: nat :| i < n && Unprotected(w, bs[..n][i]) && !SomeAddFails(w, bs[..n][..i + 1], fails);
      assert Unprotected(w, bs[i]) && !SomeAddFails(w, bs[..i + 1], fails);
    }
  }

  lemma {:induction false} OrphansGrow(w: World, bs: Bindings, fails: set<nat>)
    ensures w.orphans <= EnabledAll(w, bs, fails).world.orphans
  {
    if bs != [] {
      OrphansGrow(w, bs[..|bs| - 1], fails);
    }
  }

  /** Enable, successful or not, leaves a monitor running that nobody can stop, if and only if it comes to a binding
      that has a monitor and no link before AddMonitor fails for any. */
  lemma {:induction false} EnableLeaksIff(w: World, bs: Bindings, fails: set<nat>)
    requires DistinctIds(bs)
    ensures EnabledAll(w, bs, fails).world.orphans != w.orphans <==> Replaces(w, bs, fails)
  {
    if bs != [] {
      var n := |bs| - 1;
      EnableLeaksIff(w, bs[..n], fails);
      OrphansGrow(w, bs[..n], fails);
      EnableAddsMissing(w, bs[..n], fails);
      SomeAddFailsSnoc(w, bs, fails);
      ReplacesSnoc(w, bs, fails);
      OthersUntouched(w, bs[..n], fails, bs[n].monitorId);
    }
  }

  /** That is the state between the two halves of Disable. An Enable in between leaks the old monitor, and
      then Disable stops the new one: the binding has a link and no monitor. */
  lemma EnableInsideDisable(bs: Bindings, w: World, i: nat)
    requires Inv(bs, w) && DistinctIds(bs) && i < |bs| && Enabled(w, bs[i].monitorId)
    ensures
      var w1 := EnabledAll(Unlinked(w), bs, {}).world;
      var w2 := StoppedAll(w1, w.links.Keys);
      w2.orphans != [] && bs[i].monitorId in w2.links && bs[i].monitorId !in w2.monitors
  {
    var u := Unlinked(w);
    EnableAddsMissing(u, bs, {});
    SuccessServesEveryBinding(u, bs, {});
    EnableLeaksIff(u, bs, {});
    OrphansGrow(u, bs, {});
    assert Unprotected(u, bs[i]) && !SomeAddFails(u, bs[..i + 1], {});
  }

  // ---------------------------------------------------------------------
  // The controller itself

  class KubernetesBindingsController {
    const kubernetesBindings: Bindings
    var bindingMonitorLinks: map<MonitorId, Link>
    /** What the monitor configs hold, by monitor id. */
    var monitorConfigs: map<MonitorId, MonitorConfig>
    /** Of the manager: the index of monitors, and the events in its channel. */
    var monitors: map<MonitorId, Monitor>
    var kubeEventCh: seq<KubeEvent>
    ghost var added: seq<MonitorId>
    ghost var orphans: seq<Monitor>

    constructor (bindings: Bindings, configs: map<MonitorId, MonitorConfig>)
      ensures kubernetesBindings == bindings
      ensures State() == World(configs, map[], map[], [], [], []) && Inv(bindings, State())
    {
      kubernetesBindings, monitorConfigs := bindings, configs;
      bindingMonitorLinks, monitors, kubeEventCh, added, orphans := map[], map[], [], [], [];
    }

    ghost function State(): World
      reads this
    {
      World(monitorConfigs, bindingMonitorLinks, monitors, added, orphans, kubeEventCh)
    }

    function GetConfig(id: MonitorId): (c: MonitorConfig)
      reads this
      ensures c == ConfigOf(State(), id)
    {
      if id in monitorConfigs then monitorConfigs[id] else MonitorConfig("", "", "")
    }

    /** AddMonitor; `ok` says whether CreateInformers succeeds. */
    method AddMonitor(id: MonitorId, ok: bool)
      modifies `monitors, `added, `orphans
      ensures State() == if ok then AddedMonitor(old(State()), id) else old(State())
    {
      if !ok {
        return;
      }
      orphans := if id in monitors then orphans + [monitors[id]] else orphans;
      added := added + [id];
      var c := GetConfig(id);
      monitors := monitors[id := Monitor(c.kind, c.apiVersion, false, false)];
    }

    method StartMonitor(id: MonitorId)
      requires id in monitors
      modifies `monitors
      ensures State() == StartedMonitor(old(State()), id)
    {
      monitors := monitors[id := monitors[id].(started := true)];
    }

    method StopMonitor(id: MonitorId)
      modifies `monitors
      ensures State() == StoppedMonitor(old(State()), id)
    {
      if id in monitors {
        monitors := monitors - {id};
      } else {
        assert monitors - {id} == monitors;
      }
    }

    method UnlockEventsFor(id: MonitorId)
      modifies `monitors
      ensures State() == if id in old(monitors) then UnlockedMonitor(old(State()), id) else old(State())
    {
      if id !in monitors {
        return;
      }
      monitors := monitors[id := monitors[id].(unlocked := true)];
    }

    method HandleEvent(ev: KubeEvent) returns (info: BindingExecutionInfo)
      ensures info == Handled(bindingMonitorLinks, ev)
    {
      if ev.monitorId !in bindingMonitorLinks {
        return BindingExecutionInfo([], [], false, "", "", "", None);
      }
      var b := bindingMonitorLinks[ev.monitorId].bindingConfig;
      var bindingContext := ConvertKubeEventToBindingContext(ev, b);
      info := BindingExecutionInfo(bindingContext, b.includeSnapshotsFrom, b.allowFailure, b.queue, b.bindingName, b.group, Some(b));
    }

    /** The body of the loop of EnableKubernetesBindings. */
    method EnableBinding(config: OnKubernetesEventConfig, addFails: bool, ghost r: Outcome)
      returns (err: bool, synchronizationInfo: BindingExecutionInfo)
      requires r.world == State() && !r.failed
      modifies `bindingMonitorLinks, `monitors, `added, `orphans
      ensures EnabledNext(r, config, addFails) == Outcome(State(), if err then [] else r.infos + [synchronizationInfo], err)
    {
      var monitorID := config.monitorId;
      var linked := monitorID in bindingMonitorLinks;
      synchronizationInfo := BindingExecutionInfo([], [], false, "", "", "", None);
      if !linked || monitorID !in monitors {
        AddMonitor(monitorID, !addFails);
        if addFails {
          return true, synchronizationInfo;
        }
        bindingMonitorLinks := bindingMonitorLinks[monitorID := Link(monitorID, config)];
        StartMonitor(monitorID);
      }
      synchronizationInfo := HandleEvent(KubeEvent(monitorID, Synchronization, [], None));
      err := false;
    }

    /** `fails` are the numbers of the bindings for which AddMonitor fails, if it is called. */
    method EnableKubernetesBindings(fails: set<nat>) returns (res: seq<BindingExecutionInfo>, err: bool)
      modifies `bindingMonitorLinks, `monitors, `added, `orphans
      ensures Outcome(State(), res, err) == EnabledAll(old(State()), kubernetesBindings, fails)
    {
      res := [];
      ghost var w, bs := State(), kubernetesBindings;
      for i := 0 to |kubernetesBindings|
        invariant Outcome(State(), res, false) == EnabledAll(w, bs[..i], fails)
      {
        assert bs[..i + 1][..i] == bs[..i];
        var failed, synchronizationInfo := EnableBinding(kubernetesBindings[i], i in fails, EnabledAll(w, bs[..i], fails));
        if failed {
          FailureStays(w, bs, fails, i + 1);
          return [], true;
        }
        res := res + [synchronizationInfo];
      }
      assert bs[..|bs|] == bs;
      err := false;
    }

    method UpdateMonitor(id: MonitorId, kind: string, apiVersion: string, addOk: bool) returns (err: bool)
      modifies `monitors, `added, `orphans, `monitorConfigs, `kubeEventCh
      ensures State() == Updated(old(State()), id, kind, apiVersion, addOk)
      ensures err == (id in bindingMonitorLinks && !addOk)
    {
      if id !in bindingMonitorLinks {
        return false;
      }
      StopMonitor(id);
      var c := GetConfig(id);
      if c.kind != kind || c.apiVersion != apiVersion {
        monitorConfigs := monitorConfigs[id := MonitorConfig(kind, apiVersion, kind)];
      }
      AddMonitor(id, addOk);
      if !addOk {
        return true;
      }
      kubeEventCh := kubeEventCh + [KubeEvent(id, Event, ["Added"], None)];
      StartMonitor(id);
      UnlockEventsFor(id);
      err := false;
    }

    method DisableKubernetesBindings()
      modifies `bindingMonitorLinks, `monitors
      ensures State() == Next(kubernetesBindings, old(State()), Disable)
    {
      var ids := bindingMonitorLinks.Keys;
      bindingMonitorLinks := map[];
      ghost var w := State();
      var todo := ids;
      while todo != {}
        invariant todo <= ids && State() == StoppedAll(w, ids - todo)
        decreases |todo|
      {
        var id :| id in todo;
        StopMonitor(id);
        assert w.monitors - (ids - todo) - {id} == w.monitors - (ids - (todo - {id}));
        todo := todo - {id};
      }
      assert ids - {} == ids;
    }
  }

  lemma {:induction false} FailureStays(w: World, bs: Bindings, fails: set<nat>, m: nat)
    requires m <= |bs| && EnabledAll(w, bs[..m], fails).failed
    ensures EnabledAll(w, bs, fails) == EnabledAll(w, bs[..m], fails)
  {
    if m == |bs| {
      assert bs[..m] == bs;
    } else {
      assert bs[..|bs| - 1][..m] == bs[..m];
      FailureStays(w, bs[..|bs| - 1], fails, m);
    }
  }

  method ConvertKubeEventToBindingContext(ev: KubeEvent, b: OnKubernetesEventConfig) returns (bindingContexts: seq<BindingContext>)
    ensures bindingContexts == ContextsOf(ev, b)
  {
    bindingContexts := [];
    match ev.eventType {
      case Synchronization =>
        bindingContexts := [BindingContext(b.bindingName, OnKubernetesEvent, b.group, Synchronization, "", ev.objects, map[])];
      case Event =>
        for i := 0 to |ev.watchEvents|
          invariant bindingContexts == ContextsOf(ev, b)[..i]
        {
          bindingContexts := bindingContexts
            + [BindingContext(b.bindingName, OnKubernetesEvent, b.group, Event, ev.watchEvents[i], ev.objects, map[])];
        }
      case NoKubeEvent =>
    }
  }
}
