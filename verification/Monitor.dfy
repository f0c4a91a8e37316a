/** pkg/kube_events_manager/monitor.go: a monitor whose namespaces come and go has one generation of informers
    for each namespace that is there.

    Informers are numbers of entries in a table of all informers. A namespace's cancel function is represented by
    the informers that run under its context. Whether creating informers fails is a parameter of each step. */
module Monitor {
  import opened Common

  type Namespace = string
  type InformerRef = nat

  datatype ResourceInformer = ResourceInformer(namespace: Namespace, enabled: bool, started: bool, cancelled: bool)

  /** `perNamespace` is the number of informers for one namespace: one for each configured object name, or one
      for all objects. */
  datatype World = World(
    staticNamespaces: set<Namespace>,
    perNamespace: nat,
    resourceInformers: seq<InformerRef>,
    varyingInformers: map<Namespace, seq<InformerRef>>,
    cancelForNs: map<Namespace, seq<InformerRef>>,
    eventsEnabled: bool,
    informers: seq<ResourceInformer>)

  /** The next `n` numbers from `start`. */
  function Refs(start: nat, n: nat): (r: seq<InformerRef>)
    ensures |r| == n && forall i :: 0 <= i < n ==> r[i] == start + i
    ensures forall k :: k in r <==> start <= k < start + n
  {
    if n == 0 then [] else Refs(start, n - 1) + [start + n - 1]
  }

  function Generation(ns: Namespace, n: nat, enabled: bool, started: bool): seq<ResourceInformer> {
    seq(n, i requires 0 <= i => ResourceInformer(ns, enabled, started, false))
  }

  // ---------------------------------------------------------------------
  // CreateInformers and Start

  /** A monitor before CreateInformers. */
  function NewMonitor(perNamespace: nat): World {
    World({}, perNamespace, [], map[], map[], false, [])
  }

  /** The static informers; the empty name stands for all namespaces. */
  function PreparedStatic(w: World, nsNames: seq<Namespace>): World {
    if nsNames == [] then w
    else
      var w1, ns := PreparedStatic(w, nsNames[..|nsNames| - 1]), nsNames[|nsNames| - 1];
      w1.(staticNamespaces := if ns != "" then w1.staticNamespaces + {ns} else w1.staticNamespaces,
          informers := w1.informers + Generation(ns, w1.perNamespace, false, false),
          resourceInformers := w1.resourceInformers + Refs(|w1.informers|, w1.perNamespace))
  }

  /** One existing namespace; a failure is only logged, and leaves the namespace with no informers. */
  function Prepared(w: World, ns: Namespace, ok: bool): World {
    if ns in w.staticNamespaces then w
    else
      var n := if ok then w.perNamespace else 0;
      w.(informers := w.informers + Generation(ns, n, false, false),
         varyingInformers := w.varyingInformers[ns := Refs(|w.informers|, n)])
  }

  /** The existing namespaces, in the order in which the source iterates over the map of them. */
  function PreparedAll(w: World, existing: seq<Namespace>, fails: set<Namespace>): World {
    if existing == [] then w
    else
      var last := existing[|existing| - 1];
      Prepared(PreparedAll(w, existing[..|existing| - 1], fails), last, last !in fails)
  }

  /** The informer is one of the monitor's. */
  predicate InUse(w: World, k: InformerRef) {
    || k in w.resourceInformers
    || (k < |w.informers| && w.informers[k].namespace in w.varyingInformers
        && k in w.varyingInformers[w.informers[k].namespace])
  }

  /** Start: contexts for all namespaces, and all informers run. */
  function Started(w: World): World {
    w.(cancelForNs := map ns | ns in w.varyingInformers :: w.varyingInformers[ns],
       informers := seq(|w.informers|, k requires 0 <= k < |w.informers| =>
                        if InUse(w, k) then w.informers[k].(started := true) else w.informers[k]))
  }

  // ---------------------------------------------------------------------
  // Namespace events and EnableKubeEventCb

  /** The add callback. */
  function NsAdded(w: World, ns: Namespace, ok: bool): World {
    if ns in w.staticNamespaces || ns in w.varyingInformers then w
    else
      var n := if ok then w.perNamespace else 0;
      w.(informers := w.informers + Generation(ns, n, w.eventsEnabled, true),
         varyingInformers := w.varyingInformers[ns := Refs(|w.informers|, n)],
         cancelForNs := w.cancelForNs[ns := Refs(|w.informers|, n)])
  }

  /** The delete callback. */
  function NsDeleted(w: World, ns: Namespace): World {
    if ns in w.staticNamespaces || ns !in w.cancelForNs then w
    else
      w.(informers := Cancelled(w.informers, w.cancelForNs[ns]),
         varyingInformers := w.varyingInformers - {ns},
         cancelForNs := w.cancelForNs - {ns})
  }

  function Cancelled(informers: seq<ResourceInformer>, refs: seq<InformerRef>): (r: seq<ResourceInformer>)
    ensures |r| == |informers|
  {
    seq(|informers|, k requires 0 <= k < |informers| =>
        if k in refs then informers[k].(cancelled := true) else informers[k])
  }

  /** EnableKubeEventCb goes over all informers. */
  function EnabledInformers(w: World): World {
    w.(informers := seq(|w.informers|, k requires 0 <= k < |w.informers| =>
                        if InUse(w, k) then w.informers[k].(enabled := true) else w.informers[k]))
  }

  /** Its first loop goes over the static ones. */
  function StaticEnabled(w: World): World {
    w.(informers := seq(|w.informers|, k requires 0 <= k < |w.informers| =>
                        if k in w.resourceInformers then w.informers[k].(enabled := true) else w.informers[k]))
  }

  predicate IsVarying(w: World, ns: Namespace, k: InformerRef) {
    ns in w.varyingInformers && k in w.varyingInformers[ns]
  }

  /** The second loop visits one namespace after the other. */
  function NsVisited(w: World, ns: Namespace): World {
    w.(informers := seq(|w.informers|, k requires 0 <= k < |w.informers| =>
                        if IsVarying(w, ns, k) then w.informers[k].(enabled := true) else w.informers[k]))
  }

  /** Then it sets the flag for those to come. */
  function FlagSet(w: World): World {
    w.(eventsEnabled := true)
  }

  datatype Step =
    | AddNamespace(ns: Namespace, ok: bool)
    | DeleteNamespace(ns: Namespace)
    | VisitNamespace(ns: Namespace)
    | EnableKubeEventCb

  function Next(w: World, s: Step): World {
    match s
    case AddNamespace(ns, ok) => NsAdded(w, ns, ok)
    case DeleteNamespace(ns) => NsDeleted(w, ns)
    case VisitNamespace(ns) => NsVisited(w, ns)
    case EnableKubeEventCb => FlagSet(EnabledInformers(w))
  }

  function After(w: World, run: seq<Step>): World {
    if run == [] then w else Next(After(w, run[..|run| - 1]), run[|run| - 1])
  }

  /** The namespaces that are there after the events. */
  function Present(before: set<Namespace>, run: seq<Step>): set<Namespace> {
    if run == [] then before
    else
      var rest := Present(before, run[..|run| - 1]);
      match run[|run| - 1]
      case AddNamespace(ns, _) => rest + {ns}
      case DeleteNamespace(ns) => rest - {ns}
      case VisitNamespace(_) => rest
      case EnableKubeEventCb => rest
  }

  // ---------------------------------------------------------------------
  // The invariant

  /** The static informers exist, are not cancelled, and belong to no other namespace. */
  ghost predicate StaticApart(w: World) {
    forall k :: k in w.resourceInformers ==>
      && k < |w.informers| && !w.informers[k].cancelled
      && w.informers[k].namespace !in w.varyingInformers && (w.informers[k].namespace == "" || w.informers[k].namespace in w.staticNamespaces)
  }

  /** These are informers of the namespace under a live context. */
  predicate Owned(w: World, ns: Namespace, refs: seq<InformerRef>) {
    forall k :: k in refs ==> k < |w.informers| && w.informers[k].namespace == ns && !w.informers[k].cancelled
  }

  /** Each namespace has the informers of one creation, complete or none. */
  ghost predicate Generations(w: World) {
    forall ns :: ns in w.varyingInformers ==>
      && ns !in w.staticNamespaces && ns != ""
      && |w.varyingInformers[ns]| in {0, w.perNamespace}
      && Owned(w, ns, w.varyingInformers[ns])
  }

  /** Running informers are those of the namespaces that are there, and they run under the context that the
      namespace's cancel function cancels. */
  ghost predicate OneGenerationRuns(w: World) {
    && w.cancelForNs == w.varyingInformers
    && (forall k :: 0 <= k < |w.informers| ==> (InUse(w, k) <==> w.informers[k].started && !w.informers[k].cancelled))
  }

  ghost predicate AllEnabled(w: World) {
    forall k :: 0 <= k < |w.informers| && InUse(w, k) ==> w.informers[k].enabled
  }

  ghost predicate Inv(w: World) {
    && StaticApart(w) && Generations(w) && OneGenerationRuns(w)
    && (w.eventsEnabled ==> AllEnabled(w))
  }

  /** Namespaces have names. */
  predicate Named(s: Step) {
    s.AddNamespace? ==> s.ns != ""
  }

  lemma AddKeepsInv(w: World, ns: Namespace, ok: bool)
    requires Inv(w) && ns != ""
    ensures Inv(NsAdded(w, ns, ok))
  {
    var w1 := NsAdded(w, ns, ok);
    if w1 != w {
      assert forall k :: 0 <= k < |w.informers| ==> w1.informers[k] == w.informers[k];
      forall k | 0 <= k < |w1.informers|
        ensures InUse(w1, k) <==> (if k < |w.informers| then InUse(w, k) else true)
      {
        if k >= |w.informers| {
          assert k in Refs(|w.informers|, w.perNamespace);
        }
      }
    }
  }

  lemma DeleteKeepsInv(w: World, ns: Namespace)
    requires Inv(w)
    ensures Inv(NsDeleted(w, ns))
  {
    var w1 := NsDeleted(w, ns);
    if w1 != w {
      forall k | 0 <= k < |w1.informers|
        ensures InUse(w1, k) <==> InUse(w, k) && k !in w.varyingInformers[ns]
      {
      }
    }
  }

  lemma EnableKeepsInv(w: World)
    requires Inv(w)
    ensures Inv(Next(w, EnableKubeEventCb)) && Next(w, EnableKubeEventCb).eventsEnabled
  {
    var w1 := Next(w, EnableKubeEventCb);
    assert forall k :: 0 <= k < |w.informers| ==> (InUse(w1, k) <==> InUse(w, k));
  }

  lemma VisitKeepsInv(w: World, ns: Namespace)
    requires Inv(w)
    ensures Inv(NsVisited(w, ns))
  {
    var w1 := NsVisited(w, ns);
    assert forall k :: 0 <= k < |w.informers| ==> (InUse(w1, k) <==> InUse(w, k));
  }

  /** Over every stream of namespace events and enabling calls after Start: the namespaces with informers are those
      with a cancel function, and those that are present; each has one running generation. */
  lemma {:induction false} RunKeepsInv(w: World, run: seq<Step>)
    requires Inv(w) && forall i :: 0 <= i < |run| ==> Named(run[i])
    ensures
      var w1 := After(w, run);
      && Inv(w1) && w1.staticNamespaces == w.staticNamespaces && w1.perNamespace == w.perNamespace
      && w1.varyingInformers.Keys == Present(w.varyingInformers.Keys, run) - w.staticNamespaces
  {
    if run != [] {
      var init, last := run[..|run| - 1], run[|run| - 1];
      RunKeepsInv(w, init);
      var w1 := After(w, init);
      match last
      case AddNamespace(ns, ok) => AddKeepsInv(w1, ns, ok);
      case DeleteNamespace(ns) => DeleteKeepsInv(w1, ns);
      case VisitNamespace(ns) => VisitKeepsInv(w1, ns);
      case EnableKubeEventCb => EnableKeepsInv(w1);
    } else {
      assert w.varyingInformers.Keys - w.staticNamespaces == w.varyingInformers.Keys;
    }
  }

  lemma {:induction false} FlagStays(w: World, run: seq<Step>)
    ensures w.eventsEnabled ==> After(w, run).eventsEnabled
  {
    if run != [] {
      FlagStays(w, run[..|run| - 1]);
    }
  }

  lemma AfterTwo(w: World, run: seq<Step>, more: seq<Step>)
    ensures After(w, run + more) == After(After(w, run), more)
  {
    if more == [] {
      assert run + more == run;
    } else {
      assert (run + more)[..|run + more| - 1] == run + more[..|more| - 1];
      AfterTwo(w, run, more[..|more| - 1]);
    }
  }

  /** Once EnableKubeEventCb ran, all informers have their callback enabled for ever, those of later namespaces
      included. */
  lemma EnabledForEver(w: World, before: seq<Step>, after: seq<Step>)
    requires Inv(w) && forall i :: 0 <= i < |before + [EnableKubeEventCb] + after| ==> Named((before + [EnableKubeEventCb] + after)[i])
    ensures AllEnabled(After(w, before + [EnableKubeEventCb] + after))
  {
    var run := before + [EnableKubeEventCb];
    RunKeepsInv(w, run + after);
    AfterTwo(w, run, after);
    assert run[..|run| - 1] == before;
    FlagStays(After(w, run), after);
  }

  // ---------------------------------------------------------------------
  // From CreateInformers to the first event

  /** What CreateInformers has built before Start: informers that do not run and pass on no event. */
  ghost predicate Built(w: World) {
    && StaticApart(w) && Generations(w) && w.cancelForNs == map[] && !w.eventsEnabled && NoneEnabled(w)
    && (forall k :: 0 <= k < |w.informers| ==> InUse(w, k) && !w.informers[k].started && !w.informers[k].cancelled)
  }

  ghost predicate NoneEnabled(w: World) {
    forall k :: 0 <= k < |w.informers| ==> !w.informers[k].enabled
  }

  lemma {:induction false} PreparedStaticIsBuilt(perNamespace: nat, nsNames: seq<Namespace>)
    ensures
      var w := PreparedStatic(NewMonitor(perNamespace), nsNames);
      Built(w) && w.varyingInformers == map[] && w.staticNamespaces == Elements(nsNames) - {""}
  {
    if nsNames != [] {
      var init, last := nsNames[..|nsNames| - 1], nsNames[|nsNames| - 1];
      assert nsNames == init + [last];
      PreparedStaticIsBuilt(perNamespace, init);
      var w1, w := PreparedStatic(NewMonitor(perNamespace), init), PreparedStatic(NewMonitor(perNamespace), nsNames);
      forall k | 0 <= k < |w.informers|
        ensures k in w.resourceInformers
      {
        if k >= |w1.informers| {
          assert k in Refs(|w1.informers|, w1.perNamespace);
        } else {
          assert InUse(w1, k);
        }
      }
    }
  }

  lemma {:induction false} PreparedAllIsBuilt(w: World, existing: seq<Namespace>, fails: set<Namespace>)
    requires Built(w) && w.varyingInformers == map[]
    requires NoDuplicates(existing)
    requires "" !in existing
    ensures
      var w1 := PreparedAll(w, existing, fails);
      && Built(w1) && w1.staticNamespaces == w.staticNamespaces
      && w1.varyingInformers.Keys == Elements(existing) - w.staticNamespaces
  {
    if existing != [] {
      var init, last := existing[..|existing| - 1], existing[|existing| - 1];
      assert existing == init + [last];
      PreparedAllIsBuilt(w, init, fails);
      var w1 := PreparedAll(w, init, fails);
      PreparedKeepsBuilt(w1, last, last !in fails);
      assert Elements(existing) == Elements(init) + {last};
    }
  }

  lemma PreparedKeepsBuilt(w: World, ns: Namespace, ok: bool)
    requires Built(w) && ns !in w.varyingInformers && ns != ""
    ensures Built(Prepared(w, ns, ok))
  {
    var w1 := Prepared(w, ns, ok);
    if w1 != w {
      assert forall k :: 0 <= k < |w.informers| ==> w1.informers[k] == w.informers[k];
      forall k | 0 <= k < |w1.informers|
        ensures InUse(w1, k)
      {
        if k >= |w.informers| {
          assert k in Refs(|w.informers|, w.perNamespace);
        } else {
          assert InUse(w, k);
        }
      }
    }
  }

  /** Start makes the invariant true, and enables no callback. */
  lemma StartEstablishesInv(w: World)
    requires Built(w)
    ensures Inv(Started(w)) && Started(w).varyingInformers == w.varyingInformers
    ensures NoneEnabled(Started(w)) && !Started(w).eventsEnabled
  {
    var w1 := Started(w);
    assert forall k :: 0 <= k < |w.informers| ==> (InUse(w1, k) <==> InUse(w, k));
  }

  /** From the creation of the monitor on: the namespaces with informers are always the existing ones and those
      added since, without those deleted and the static ones. */
  lemma NamespacesFollowEvents(perNamespace: nat, nsNames: seq<Namespace>, existing: seq<Namespace>, fails: set<Namespace>, run: seq<Step>)
    requires NoDuplicates(existing)
    requires "" !in existing && forall i :: 0 <= i < |run| ==> Named(run[i])
    ensures
      var w1 := After(Fresh(perNamespace, nsNames, existing, fails), run);
      && Inv(w1)
      && w1.varyingInformers.Keys == Present(Elements(existing), run) - Elements(nsNames)
  {
    var static_ := PreparedStatic(NewMonitor(perNamespace), nsNames);
    PreparedStaticIsBuilt(perNamespace, nsNames);
    PreparedAllIsBuilt(static_, existing, fails);
    var built := PreparedAll(static_, existing, fails);
    StartEstablishesInv(built);
    RunKeepsInv(Started(built), run);
    var there := Elements(existing);
    assert built.varyingInformers.Keys == there - static_.staticNamespaces;
    PresentOutside(there, static_.staticNamespaces, run);
    PresentIsNamed(there, run);
    assert Present(there, run) - Elements(nsNames) == Present(there, run) - static_.staticNamespaces;
  }

  lemma {:induction false} PresentOutside(before: set<Namespace>, out: set<Namespace>, run: seq<Step>)
    ensures Present(before - out, run) - out == Present(before, run) - out
  {
    if run != [] {
      var init, last := run[..|run| - 1], run[|run| - 1];
      PresentOutside(before, out, init);
      var p, q := Present(before - out, init), Present(before, init);
      if last.AddNamespace? || last.DeleteNamespace? {
        var ns := {last.ns};
        assert (p + ns) - out == (p - out) + (ns - out) == (q + ns) - out;
        assert (p - ns) - out == (p - out) - ns == (q - ns) - out;
      }
    }
  }

  lemma {:induction false} PresentIsNamed(before: set<Namespace>, run: seq<Step>)
    requires "" !in before && forall i :: 0 <= i < |run| ==> Named(run[i])
    ensures "" !in Present(before, run)
  {
    if run != [] {
      PresentIsNamed(before, run[..|run| - 1]);
    }
  }

  /** A monitor that is created and started. */
  function Fresh(perNamespace: nat, nsNames: seq<Namespace>, existing: seq<Namespace>, fails: set<Namespace>): World {
    Started(PreparedAll(PreparedStatic(NewMonitor(perNamespace), nsNames), existing, fails))
  }

  lemma FreshIsSound(perNamespace: nat, nsNames: seq<Namespace>, existing: seq<Namespace>, fails: set<Namespace>)
    requires NoDuplicates(existing) && "" !in existing
    ensures Inv(Fresh(perNamespace, nsNames, existing, fails))
    ensures NoneEnabled(Fresh(perNamespace, nsNames, existing, fails)) && !Fresh(perNamespace, nsNames, existing, fails).eventsEnabled
  {
    PreparedStaticIsBuilt(perNamespace, nsNames);
    PreparedAllIsBuilt(PreparedStatic(NewMonitor(perNamespace), nsNames), existing, fails);
    StartEstablishesInv(PreparedAll(PreparedStatic(NewMonitor(perNamespace), nsNames), existing, fails));
  }

  // ---------------------------------------------------------------------
  // Which informers there are, judged by the events alone

  lemma StepInUse(w: World, s: Step, k: InformerRef)
    requires Inv(w) && Named(s) && k < |w.informers|
    ensures k < |Next(w, s).informers| && Next(w, s).informers[k].namespace == w.informers[k].namespace
    ensures InUse(Next(w, s), k)
            <==> InUse(w, k) && (k in w.resourceInformers || s != DeleteNamespace(w.informers[k].namespace))
  {
  }

  /** An informer stays in use, and runs, until its namespace is deleted; a static one for ever. */
  lemma {:induction false} InUseUntilDeleted(w: World, run: seq<Step>, k: InformerRef)
    requires Inv(w) && (forall i :: 0 <= i < |run| ==> Named(run[i])) && k < |w.informers|
    ensures
      var w1 := After(w, run);
      && k < |w1.informers| && w1.informers[k].namespace == w.informers[k].namespace
      && w1.resourceInformers == w.resourceInformers
      && (InUse(w1, k) <==> InUse(w, k) && (k in w.resourceInformers || DeleteNamespace(w.informers[k].namespace) !in run))
      && (InUse(w1, k) <==> w1.informers[k].started && !w1.informers[k].cancelled)
  {
    RunKeepsInv(w, run);
    if run != [] {
      var init, last := run[..|run| - 1], run[|run| - 1];
      assert run == init + [last];
      InUseUntilDeleted(w, init, k);
      RunKeepsInv(w, init);
      StepInUse(After(w, init), last, k);
    }
  }

  /** The namespaces with informers; whether the creation of their informers succeeded. */
  function Created(before: map<Namespace, bool>, statics: set<Namespace>, run: seq<Step>): map<Namespace, bool> {
    if run == [] then before else CreatedNext(Created(before, statics, run[..|run| - 1]), statics, run[|run| - 1])
  }

  function CreatedNext(created: map<Namespace, bool>, statics: set<Namespace>, s: Step): map<Namespace, bool> {
    match s
    case AddNamespace(ns, ok) => if ns in created || ns in statics then created else created[ns := ok]
    case DeleteNamespace(ns) => created - {ns}
    case VisitNamespace(_) => created
    case EnableKubeEventCb => created
  }

  /** Each namespace has all its informers if its creation succeeded, and none otherwise. */
  ghost predicate Complete(w: World, created: map<Namespace, bool>) {
    && w.varyingInformers.Keys == created.Keys
    && forall ns :: ns in created ==> |w.varyingInformers[ns]| == if created[ns] then w.perNamespace else 0
  }

  lemma {:induction false} RunKeepsComplete(w: World, run: seq<Step>, created: map<Namespace, bool>)
    requires Inv(w) && (forall i :: 0 <= i < |run| ==> Named(run[i])) && Complete(w, created)
    ensures Complete(After(w, run), Created(created, w.staticNamespaces, run))
  {
    if run != [] {
      var init, last := run[..|run| - 1], run[|run| - 1];
      RunKeepsComplete(w, init, created);
      RunKeepsInv(w, init);
      StepKeepsComplete(After(w, init), last, Created(created, w.staticNamespaces, init));
    }
  }

  lemma StepKeepsComplete(w: World, s: Step, created: map<Namespace, bool>)
    requires Inv(w) && Complete(w, created)
    ensures Complete(Next(w, s), CreatedNext(created, w.staticNamespaces, s))
  {
    if s.DeleteNamespace? && s.ns !in created {
      assert created - {s.ns} == created;
    }
  }

  /** The informers of the `i`-th static namespace have the numbers from `i * perNamespace` on. */
  ghost predicate StaticsComplete(w: World, nsNames: seq<Namespace>) {
    && |w.informers| == |nsNames| * w.perNamespace && w.resourceInformers == Refs(0, |w.informers|)
    && forall i: nat, j: nat :: i < |nsNames| && j < w.perNamespace ==> IsInformerOf(w, StaticRef(w.perNamespace, i, j), nsNames[i])
  }

  lemma {:induction false} StaticsAreComplete(perNamespace: nat, nsNames: seq<Namespace>)
    ensures
      var w := PreparedStatic(NewMonitor(perNamespace), nsNames);
      w.perNamespace == perNamespace && StaticsComplete(w, nsNames)
  {
    if nsNames != [] {
      var init, ns := nsNames[..|nsNames| - 1], nsNames[|nsNames| - 1];
      StaticsAreComplete(perNamespace, init);
      var w1, w := PreparedStatic(NewMonitor(perNamespace), init), PreparedStatic(NewMonitor(perNamespace), nsNames);
      OneMoreStatic(w1, w, init, ns);
      assert nsNames == init + [ns];
    }
  }

  lemma OneMoreStatic(w: World, w1: World, nsNames: seq<Namespace>, ns: Namespace)
    requires StaticsComplete(w, nsNames) && w1.perNamespace == w.perNamespace
    requires w1.informers == w.informers + Generation(ns, w.perNamespace, false, false)
    requires w1.resourceInformers == w.resourceInformers + Refs(|w.informers|, w.perNamespace)
    ensures StaticsComplete(w1, nsNames + [ns])
  {
    var n, per := |nsNames|, w.perNamespace;
    RefsAppend(0, |w.informers|, per);
    OneMore(n, per);
    forall i: nat, j: nat | i < n + 1 && j < per
      ensures IsInformerOf(w1, StaticRef(per, i, j), (nsNames + [ns])[i])
    {
      if i < n {
        assert IsInformerOf(w, StaticRef(per, i, j), nsNames[i]);
      } else {
        LastGeneration(w, w1.informers, ns, j);
        assert StaticRef(per, i, j) == |w.informers| + j;
      }
    }
  }

  lemma OneMore(n: nat, per: nat)
    ensures (n + 1) * per == n * per + per
  {
  }

  lemma LastGeneration(w: World, informers: seq<ResourceInformer>, ns: Namespace, j: nat)
    requires j < w.perNamespace && informers == w.informers + Generation(ns, w.perNamespace, false, false)
    ensures |w.informers| + j < |informers| && informers[|w.informers| + j].namespace == ns
  {
  }

  function StaticRef(perNamespace: nat, i: nat, j: nat): InformerRef {
    i * perNamespace + j
  }

  predicate IsInformerOf(w: World, k: InformerRef, ns: Namespace) {
    k < |w.informers| && w.informers[k].namespace == ns
  }

  lemma {:induction false} RefsAppend(start: nat, m: nat, n: nat)
    ensures Refs(start, m) + Refs(start + m, n) == Refs(start, m + n)
  {
    if n > 0 {
      RefsAppend(start, m, n - 1);
      AppendAssociates(Refs(start, m), Refs(start + m, n - 1), [start + m + n - 1]);
    }
  }

  /** The namespaces that exist when the monitor is created, but for the static ones. */
  function CreatedFirst(statics: set<Namespace>, existing: seq<Namespace>, fails: set<Namespace>): map<Namespace, bool> {
    map ns | ns in existing && ns !in statics :: ns !in fails
  }

  lemma PreparedOneComplete(w: World, ns: Namespace, ok: bool, created: map<Namespace, bool>)
    requires Complete(w, created)
    ensures Complete(Prepared(w, ns, ok), if ns in w.staticNamespaces then created else created[ns := ok])
  {
  }

  lemma CreatedFirstSnoc(statics: set<Namespace>, init: seq<Namespace>, ns: Namespace, fails: set<Namespace>)
    ensures
      var created := CreatedFirst(statics, init, fails);
      CreatedFirst(statics, init + [ns], fails) == if ns in statics then created else created[ns := ns !in fails]
  {
  }

  lemma {:induction false} PreparedIsComplete(w: World, existing: seq<Namespace>, fails: set<Namespace>)
    requires w.varyingInformers == map[]
    ensures
      var w1 := PreparedAll(w, existing, fails);
      && w1.staticNamespaces == w.staticNamespaces && w1.perNamespace == w.perNamespace
      && w1.resourceInformers == w.resourceInformers && w.informers <= w1.informers
      && Complete(w1, CreatedFirst(w.staticNamespaces, existing, fails))
  {
    if existing != [] {
      var init, last := existing[..|existing| - 1], existing[|existing| - 1];
      PreparedIsComplete(w, init, fails);
      PreparedOneComplete(PreparedAll(w, init, fails), last, last !in fails, CreatedFirst(w.staticNamespaces, init, fails));
      CreatedFirstSnoc(w.staticNamespaces, init, last, fails);
      assert existing == init + [last];
    }
  }

  /** From the creation of the monitor on, over every stream of events: each configured namespace has its informers,
      running, for ever; each other one has them exactly from a creation that succeeded to its deletion. */
  lemma InformersFollowEvents(perNamespace: nat, nsNames: seq<Namespace>, existing: seq<Namespace>, fails: set<Namespace>, run: seq<Step>)
    requires NoDuplicates(existing) && "" !in existing && forall i :: 0 <= i < |run| ==> Named(run[i])
    ensures
      var w1 := After(Fresh(perNamespace, nsNames, existing, fails), run);
      var statics := Elements(nsNames) - {""};
      && Complete(w1, Created(CreatedFirst(statics, existing, fails), statics, run))
      && forall i: nat, j: nat :: i < |nsNames| && j < perNamespace ==> RunsFor(w1, StaticRef(perNamespace, i, j), nsNames[i])
  {
    var s0 := PreparedStatic(NewMonitor(perNamespace), nsNames);
    var built, w := PreparedAll(s0, existing, fails), Fresh(perNamespace, nsNames, existing, fails);
    PreparedStaticIsBuilt(perNamespace, nsNames);
    StaticsAreComplete(perNamespace, nsNames);
    PreparedIsComplete(s0, existing, fails);
    FreshIsSound(perNamespace, nsNames, existing, fails);
    RunKeepsComplete(w, run, CreatedFirst(s0.staticNamespaces, existing, fails));
    forall i: nat, j: nat | i < |nsNames| && j < perNamespace
      ensures RunsFor(After(w, run), StaticRef(perNamespace, i, j), nsNames[i])
    {
      var k := StaticRef(perNamespace, i, j);
      assert IsInformerOf(s0, k, nsNames[i]);
      StaticRunsForEver(s0, built, run, k, nsNames[i]);
    }
  }

  predicate RunsFor(w: World, k: InformerRef, ns: Namespace) {
    IsInformerOf(w, k, ns) && w.informers[k].started && !w.informers[k].cancelled
  }

  lemma StaticRunsForEver(s0: World, built: World, run: seq<Step>, k: InformerRef, ns: Namespace)
    requires IsInformerOf(s0, k, ns) && k in s0.resourceInformers
    requires s0.informers <= built.informers && built.resourceInformers == s0.resourceInformers
    requires Inv(Started(built)) && forall i :: 0 <= i < |run| ==> Named(run[i])
    ensures RunsFor(After(Started(built), run), k, ns)
  {
    assert built.informers[k] == s0.informers[k];
    InUseUntilDeleted(Started(built), run, k);
  }

  // ---------------------------------------------------------------------
  // Which callbacks are enabled, judged by the calls alone

  /** The step number `p` enables the informer: EnableKubeEventCb finds it, or it is created after EnableKubeEventCb. */
  predicate EnabledAt(w: World, run: seq<Step>, k: InformerRef, p: nat)
    requires p < |run|
  {
    var before := After(w, run[..p]);
    match run[p]
    case AddNamespace(_, _) => |before.informers| <= k < |Next(before, run[p]).informers| && EnableKubeEventCb in run[..p]
    case DeleteNamespace(_) => false
    case VisitNamespace(ns) => k < |before.informers| && IsVarying(before, ns, k)
    case EnableKubeEventCb => k < |before.informers| && InUse(before, k)
  }

  ghost predicate EnabledBy(w: World, run: seq<Step>, k: InformerRef) {
    exists p: nat :: p < |run| && EnabledAt(w, run, k, p)
  }

  lemma EnabledBySnoc(w: World, run: seq<Step>, k: InformerRef)
    requires run != []
    ensures EnabledBy(w, run, k) <==> EnabledBy(w, run[..|run| - 1], k) || EnabledAt(w, run, k, |run| - 1)
  {
    var init := run[..|run| - 1];
    forall p: nat | p < |init|
      ensures EnabledAt(w, init, k, p) <==> EnabledAt(w, run, k, p)
    {
      assert init[..p] == run[..p];
    }
  }

  /** From a state in which nothing is enabled on: an informer is enabled if and only if a step enabled it. */
  lemma {:induction false} EnabledExactly(w: World, run: seq<Step>, k: InformerRef)
    requires NoneEnabled(w) && !w.eventsEnabled
    ensures
      var w1 := After(w, run);
      && |w.informers| <= |w1.informers| && (w1.eventsEnabled <==> EnableKubeEventCb in run)
      && (EnabledBy(w, run, k) ==> k < |w1.informers|)
      && (k < |w1.informers| ==> (w1.informers[k].enabled <==> EnabledBy(w, run, k)))
  {
    if run != [] {
      var init, last := run[..|run| - 1], run[|run| - 1];
      assert run == init + [last];
      EnabledExactly(w, init, k);
      EnabledBySnoc(w, run, k);
      StepEnablesExactly(After(w, init), last, k);
    }
  }

  lemma StepEnablesExactly(w: World, s: Step, k: InformerRef)
    ensures
      var w1 := Next(w, s);
      && |w.informers| <= |w1.informers| && (w1.eventsEnabled <==> w.eventsEnabled || s.EnableKubeEventCb?)
      && (k < |w.informers| ==>
            (w1.informers[k].enabled <==>
             w.informers[k].enabled || (s.VisitNamespace? && IsVarying(w, s.ns, k)) || (s.EnableKubeEventCb? && InUse(w, k))))
      && (|w.informers| <= k < |w1.informers| ==> s.AddNamespace? && w1.informers[k].enabled == w.eventsEnabled)
  {
  }

  /** No event reaches the callback before EnableKubeEventCb is called, or visits the informer. */
  lemma NothingEnabledEarly(perNamespace: nat, nsNames: seq<Namespace>, existing: seq<Namespace>, fails: set<Namespace>, run: seq<Step>)
    requires NoDuplicates(existing) && "" !in existing
    requires forall i :: 0 <= i < |run| ==> run[i].AddNamespace? || run[i].DeleteNamespace?
    ensures NoneEnabled(After(Fresh(perNamespace, nsNames, existing, fails), run))
  {
    var w := Fresh(perNamespace, nsNames, existing, fails);
    FreshIsSound(perNamespace, nsNames, existing, fails);
    forall k | 0 <= k < |After(w, run).informers|
      ensures !After(w, run).informers[k].enabled
    {
      EnabledExactly(w, run, k);
      assert forall p: nat :: p < |run| ==> EnableKubeEventCb !in run[..p];
    }
  }

  // ---------------------------------------------------------------------
  // What can go wrong

  /** A failed creation is not repaired by later events for the same namespace: its informers are complete if and
      only if the creation did not fail. */
  lemma FailedCreationStays(w: World, ns: Namespace, ok: bool)
    requires ns !in w.staticNamespaces && ns !in w.varyingInformers && w.perNamespace > 0
    ensures
      var w1 := NsAdded(NsAdded(w, ns, ok), ns, true);
      ns in w1.varyingInformers && (|w1.varyingInformers[ns]| == w.perNamespace <==> ok)
  {
  }

  /** Namespace events between the two halves of EnableKubeEventCb. */
  predicate NamespaceEvents(run: seq<Step>) {
    forall i :: 0 <= i < |run| ==> (run[i].AddNamespace? || run[i].DeleteNamespace?) && Named(run[i])
  }

  /** Created before the first half. */
  ghost predicate NoneNewer(w: World, n: nat) {
    forall k :: n <= k < |w.informers| ==> !InUse(w, k)
  }

  lemma {:induction false} WindowState(w: World, run: seq<Step>)
    requires Inv(w) && !w.eventsEnabled && AllEnabled(w) && NamespaceEvents(run)
    ensures
      var w1 := After(w, run);
      && Inv(w1) && !w1.eventsEnabled && |w.informers| <= |w1.informers|
      && (forall k :: 0 <= k < |w.informers| && InUse(w1, k) ==> w1.informers[k].enabled)
      && (forall k :: |w.informers| <= k < |w1.informers| ==> !w1.informers[k].enabled)
  {
    if run != [] {
      var init, last := run[..|run| - 1], run[|run| - 1];
      assert NamespaceEvents(init) && (last.AddNamespace? || last.DeleteNamespace?) && Named(last);
      WindowState(w, init);
      var w1 := After(w, init);
      var w2 := After(w, run);
      match last
      case AddNamespace(ns, ok) =>
        AddKeepsInv(w1, ns, ok);
        assert forall k :: 0 <= k < |w1.informers| ==> w2.informers[k] == w1.informers[k] && (InUse(w2, k) ==> InUse(w1, k));
      case DeleteNamespace(ns) =>
        DeleteKeepsInv(w1, ns);
        assert forall k :: 0 <= k < |w1.informers| && InUse(w2, k) ==> InUse(w1, k);
    }
  }

  /** Between the two halves of EnableKubeEventCb a new namespace gets informers that stay disabled. All informers
      are enabled in the end if and only if none in use was created in between. */
  lemma WindowSafeIff(w: World, run: seq<Step>)
    requires Inv(w) && !w.eventsEnabled && NamespaceEvents(run)
    ensures
      var end := FlagSet(After(EnabledInformers(w), run));
      AllEnabled(end) <==> NoneNewer(end, |w.informers|)
  {
    var w1 := EnabledInformers(w);
    assert forall k :: 0 <= k < |w.informers| ==> (InUse(w1, k) <==> InUse(w, k));
    WindowState(w1, run);
    var w2 := After(w1, run);
    var end := FlagSet(w2);
    assert forall k :: InUse(end, k) <==> InUse(w2, k);
  }

  /** Namespace events while EnableKubeEventCb visits the namespaces. */
  predicate RangeEvents(run: seq<Step>) {
    forall i :: 0 <= i < |run| ==> !run[i].EnableKubeEventCb? && Named(run[i])
  }

  /** sync.Map.Range visits at least each key that is there all the time. */
  ghost predicate RangeCovers(w: World, run: seq<Step>) {
    forall ns :: ns in w.varyingInformers ==> VisitNamespace(ns) in run || DeleteNamespace(ns) in run
  }

  /** The visit number `p` meets the informer. */
  predicate VisitedAt(w: World, run: seq<Step>, k: InformerRef, p: nat) {
    p < |run| && run[p].VisitNamespace? && IsVarying(After(w, run[..p]), run[p].ns, k)
  }

  ghost predicate Visited(w: World, run: seq<Step>, k: InformerRef) {
    exists p :: VisitedAt(w, run, k, p)
  }

  lemma VisitedSnoc(w: World, run: seq<Step>, k: InformerRef)
    requires run != []
    ensures
      var init, last := run[..|run| - 1], run[|run| - 1];
      Visited(w, run, k) <==> Visited(w, init, k) || (last.VisitNamespace? && IsVarying(After(w, init), last.ns, k))
  {
    var init, last := run[..|run| - 1], run[|run| - 1];
    if p: nat :| VisitedAt(w, run, k, p) {
      if p < |init| {
        assert run[..p] == init[..p];
        assert VisitedAt(w, init, k, p);
      }
    }
    if p: nat :| VisitedAt(w, init, k, p) {
      assert run[..p] == init[..p];
      assert VisitedAt(w, run, k, p);
    }
    if last.VisitNamespace? && IsVarying(After(w, init), last.ns, k) {
      assert VisitedAt(w, run, k, |init|);
    }
  }

  /** With the flag unset, the enabled informers are those that were, and those visited. */
  lemma {:induction false} RangeState(w: World, run: seq<Step>)
    requires Inv(w) && !w.eventsEnabled && RangeEvents(run)
    ensures
      var w1 := After(w, run);
      && Inv(w1) && !w1.eventsEnabled && |w.informers| <= |w1.informers|
      && forall k: InformerRef :: k < |w1.informers| ==>
           (w1.informers[k].enabled <==> (k < |w.informers| && w.informers[k].enabled) || Visited(w, run, k))
  {
    if run == [] {
      assert forall k :: !Visited(w, run, k);
    } else {
      var init, last := run[..|run| - 1], run[|run| - 1];
      assert RangeEvents(init) && !last.EnableKubeEventCb? && Named(last);
      RangeState(w, init);
      StepKeepsRangeInv(After(w, init), last);
      var w1, w2 := After(w, init), After(w, run);
      forall k: InformerRef | k < |w2.informers|
        ensures w2.informers[k].enabled <==> (k < |w.informers| && w.informers[k].enabled) || Visited(w, run, k)
      {
        VisitedSnoc(w, run, k);
        StepEnables(w1, last, k);
        if k >= |w1.informers| {
          NotYetVisited(w, init, k);
        }
      }
    }
  }

  lemma StepKeepsRangeInv(w: World, s: Step)
    requires Inv(w) && !w.eventsEnabled && !s.EnableKubeEventCb? && Named(s)
    ensures Inv(Next(w, s)) && !Next(w, s).eventsEnabled && |w.informers| <= |Next(w, s).informers|
  {
    match s
    case AddNamespace(ns, ok) => AddKeepsInv(w, ns, ok);
    case DeleteNamespace(ns) => DeleteKeepsInv(w, ns);
    case VisitNamespace(ns) => VisitKeepsInv(w, ns);
  }

  lemma StepEnables(w: World, s: Step, k: InformerRef)
    requires Inv(w) && !w.eventsEnabled && !s.EnableKubeEventCb? && k < |Next(w, s).informers|
    ensures Next(w, s).informers[k].enabled
            <==> k < |w.informers| && (w.informers[k].enabled || (s.VisitNamespace? && IsVarying(w, s.ns, k)))
  {
  }

  /** Informers are not visited before they exist. */
  lemma {:induction false} NotYetVisited(w: World, run: seq<Step>, k: InformerRef)
    requires Inv(w) && !w.eventsEnabled && RangeEvents(run) && k >= |After(w, run).informers|
    ensures !Visited(w, run, k)
    ensures Inv(After(w, run)) && !After(w, run).eventsEnabled
  {
    if run != [] {
      var init, last := run[..|run| - 1], run[|run| - 1];
      assert RangeEvents(init) && !last.EnableKubeEventCb? && Named(last);
      RangeLength(w, run);
      NotYetVisited(w, init, k);
      StepKeepsRangeInv(After(w, init), last);
      VisitedSnoc(w, run, k);
      assert !IsVarying(After(w, init), last.ns, k);
    }
  }

  lemma RangeLength(w: World, run: seq<Step>)
    requires run != []
    ensures |After(w, run[..|run| - 1]).informers| <= |After(w, run).informers|
  {
  }

  /** An informer in use has been in use, for the same namespace, since it exists. */
  lemma WasInUse(w: World, run: seq<Step>, k: InformerRef)
    requires Inv(w) && !w.eventsEnabled && RangeEvents(run) && k < |w.informers| && InUse(After(w, run), k)
    ensures InUse(w, k) && k < |After(w, run).informers| && After(w, run).informers[k].namespace == w.informers[k].namespace
  {
    InUseUntilDeleted(w, run, k);
  }

  lemma StepWasInUse(w: World, s: Step, k: InformerRef)
    requires Inv(w) && !w.eventsEnabled && !s.EnableKubeEventCb? && Named(s) && k < |w.informers| && InUse(Next(w, s), k)
    ensures InUse(w, k) && Next(w, s).informers[k].namespace == w.informers[k].namespace
    ensures s.DeleteNamespace? ==> !IsVarying(w, s.ns, k)
  {
    StepKeepsRangeInv(w, s);
    assert Next(w, s).informers[k].started && !Next(w, s).informers[k].cancelled;
  }

  lemma RunSplit(w: World, run: seq<Step>, p: nat)
    requires p < |run|
    ensures After(w, run) == After(After(w, run[..p]), run[p..]) == After(Next(After(w, run[..p]), run[p]), run[p + 1..])
  {
    assert run == run[..p] + run[p..] && run == run[..p + 1] + run[p + 1..];
    AfterTwo(w, run[..p], run[p..]);
    AfterTwo(w, run[..p + 1], run[p + 1..]);
    assert run[..p + 1][..p] == run[..p];
  }

  /** An informer that was there at the start and is in use at the end has been visited. */
  lemma OldIsVisited(w: World, run: seq<Step>, k: InformerRef)
    requires Inv(w) && !w.eventsEnabled && RangeEvents(run) && RangeCovers(w, run)
    requires k < |w.informers| && InUse(After(w, run), k) && k !in w.resourceInformers
    ensures Visited(w, run, k)
  {
    WasInUse(w, run, k);
    var ns := w.informers[k].namespace;
    var p :| 0 <= p < |run| && run[p] in {VisitNamespace(ns), DeleteNamespace(ns)};
    assert RangeEvents(run[..p]) && RangeEvents(run[p..]) && RangeEvents(run[p + 1..]);
    var mid := After(w, run[..p]);
    RunSplit(w, run, p);
    RangeState(w, run[..p]);
    WasInUse(mid, run[p..], k);
    WasInUse(w, run[..p], k);
    StaticsStay(w, run[..p]);
    assert IsVarying(mid, ns, k);
    StepKeepsRangeInv(mid, run[p]);
    WasInUse(Next(mid, run[p]), run[p + 1..], k);
    StepWasInUse(mid, run[p], k);
    assert VisitedAt(w, run, k, p);
  }

  lemma {:induction false} StaticsStay(w: World, run: seq<Step>)
    ensures After(w, run).resourceInformers == w.resourceInformers
  {
    if run != [] {
      StaticsStay(w, run[..|run| - 1]);
    }
  }

  /** Namespaces may come and go while EnableKubeEventCb visits them, and before it sets the flag. All informers are
      enabled in the end if and only if those in use that were created meanwhile have been visited. */
  lemma RangeSafeIff(w: World, run: seq<Step>)
    requires Inv(w) && !w.eventsEnabled && RangeEvents(run) && RangeCovers(w, run)
    ensures
      var start := StaticEnabled(w);
      var end := FlagSet(After(start, run));
      AllEnabled(end) <==> forall k :: |w.informers| <= k < |end.informers| && InUse(end, k) ==> Visited(start, run, k)
  {
    var start := StaticEnabled(w);
    assert forall k :: 0 <= k < |w.informers| ==> (InUse(start, k) <==> InUse(w, k));
    RangeState(start, run);
    StaticsStay(start, run);
    var w1 := After(start, run);
    var end := FlagSet(w1);
    assert forall k :: InUse(end, k) <==> InUse(w1, k);
    forall k: InformerRef | k < |w.informers| && InUse(w1, k)
      ensures w1.informers[k].enabled
    {
      if k !in w.resourceInformers {
        OldIsVisited(start, run, k);
      }
    }
  }

  // ---------------------------------------------------------------------
  // The monitor itself

  class Monitor {
    const names: seq<string>
    var staticNamespaces: set<Namespace>
    var resourceInformers: seq<InformerRef>
    var varyingInformers: map<Namespace, seq<InformerRef>>
    var cancelForNs: map<Namespace, seq<InformerRef>>
    var eventsEnabled: bool
    /** Every informer created. */
    var informers: seq<ResourceInformer>

    constructor (names: seq<string>)
      ensures State() == NewMonitor(if names == [] then 1 else |names|)
    {
      this.names, staticNamespaces := names, {};
      resourceInformers, varyingInformers, cancelForNs, eventsEnabled, informers := [], map[], map[], false, [];
    }

    ghost function State(): World
      reads this
    {
      World(staticNamespaces, if names == [] then 1 else |names|, resourceInformers, varyingInformers, cancelForNs, eventsEnabled, informers)
    }

    /** `failAt` is the number of the informer that cannot be created. */
    method CreateInformersForNamespace(ns: Namespace, failAt: Option<nat>) returns (refs: seq<InformerRef>, ok: bool)
      modifies `informers
      ensures ok == !(failAt.Some? && failAt.value < State().perNamespace)
      ensures refs == Refs(|old(informers)|, if ok then State().perNamespace else 0)
      ensures informers == old(informers) + Generation(ns, |refs|, false, false)
    {
      var objNames := [""];
      if |names| > 0 {
        objNames := names;
      }
      var created: seq<ResourceInformer> := [];
      refs := [];
      for i := 0 to |objNames|
        invariant created == Generation(ns, i, false, false) && refs == Refs(|informers|, i)
        invariant failAt.Some? ==> failAt.value >= i
      {
        if failAt == Some(i) {
          return [], false;
        }
        refs := refs + [|informers| + |created|];
        created := created + [ResourceInformer(ns, false, false, false)];
      }
      informers := informers + created;
      ok := true;
    }

    /** The static part of CreateInformers. `failAt` is the number of the namespace whose informers cannot be created;
        it is static already, and the informers before it stay. */
    method CreateStaticInformers(nsNames: seq<Namespace>, failAt: Option<nat>) returns (ok: bool)
      modifies `informers, `resourceInformers, `staticNamespaces
      ensures ok <==> !(failAt.Some? && failAt.value < |nsNames|)
      ensures ok ==> State() == PreparedStatic(old(State()), nsNames)
      ensures !ok ==>
                var w, ns := PreparedStatic(old(State()), nsNames[..failAt.value]), nsNames[failAt.value];
                State() == w.(staticNamespaces := if ns != "" then w.staticNamespaces + {ns} else w.staticNamespaces)
    {
      for i := 0 to |nsNames|
        invariant State() == PreparedStatic(old(State()), nsNames[..i])
        invariant failAt.Some? ==> failAt.value >= i
      {
        assert nsNames[..i + 1][..i] == nsNames[..i];
        if nsNames[i] != "" {
          staticNamespaces := staticNamespaces + {nsNames[i]};
        }
        var refs, created := CreateInformersForNamespace(nsNames[i], if failAt == Some(i) then Some(0) else None);
        if !created {
          return false;
        }
        resourceInformers := resourceInformers + refs;
      }
      assert nsNames[..|nsNames|] == nsNames;
      ok := true;
    }

    /** The part of CreateInformers for the namespaces that exist. */
    method CreateVaryingInformers(existing: seq<Namespace>, fails: set<Namespace>)
      modifies `informers, `varyingInformers
      ensures State() == PreparedAll(old(State()), existing, fails)
    {
      for i := 0 to |existing|
        invariant State() == PreparedAll(old(State()), existing[..i], fails)
      {
        assert existing[..i + 1][..i] == existing[..i];
        if existing[i] in staticNamespaces {
          continue;
        }
        var refs, ok := CreateInformersForNamespace(existing[i], if existing[i] in fails then Some(0) else None);
        varyingInformers := varyingInformers[existing[i] := refs];
      }
      assert existing[..|existing|] == existing;
    }

    /** Run the informers of one list. */
    method RunInformers(refs: seq<InformerRef>)
      requires forall k :: k in refs ==> k < |informers|
      modifies `informers
      ensures |informers| == |old(informers)|
      ensures forall k :: 0 <= k < |informers| ==>
                informers[k] == if k in refs then old(informers[k]).(started := true) else old(informers[k])
    {
      for i := 0 to |refs|
        invariant |informers| == |old(informers)|
        invariant forall k :: 0 <= k < |informers| ==>
                    informers[k] == if k in refs[..i] then old(informers[k]).(started := true) else old(informers[k])
      {
        assert refs[i] in refs && refs[..i + 1] == refs[..i] + [refs[i]];
        informers := informers[refs[i] := informers[refs[i]].(started := true)];
      }
      assert refs[..|refs|] == refs;
    }

    method Start()
      requires Built(State())
      modifies `informers, `cancelForNs
      ensures State() == Started(old(State())) && Inv(State())
    {
      ghost var w := State();
      StartEstablishesInv(w);
      RunInformers(resourceInformers);
      var todo := varyingInformers.Keys;
      while todo != {}
        invariant todo <= varyingInformers.Keys && |informers| == |w.informers|
        invariant cancelForNs == map ns | ns in varyingInformers && ns !in todo :: varyingInformers[ns]
        invariant forall k :: 0 <= k < |informers| ==>
                    informers[k] == if InUse(w, k) && w.informers[k].namespace !in todo then w.informers[k].(started := true) else w.informers[k]
        decreases |todo|
      {
        var ns :| ns in todo;
        cancelForNs := cancelForNs[ns := varyingInformers[ns]];
        RunInformers(varyingInformers[ns]);
        todo := todo - {ns};
      }
      assert informers == Started(w).informers;
    }

    /** The loop of the add callback over new informers. */
    method StartInformers(refs: seq<InformerRef>, ns: Namespace, start: nat)
      requires start <= |informers| && informers[start..] == Generation(ns, |refs|, false, false) && refs == Refs(start, |refs|)
      modifies `informers
      ensures informers == old(informers[..start]) + Generation(ns, |refs|, eventsEnabled, true)
    {
      for i := 0 to |refs|
        invariant |informers| == start + |refs| && informers[..start] == old(informers[..start])
        invariant forall k :: start <= k < |informers| ==>
                    informers[k] == ResourceInformer(ns, k < start + i && eventsEnabled, k < start + i, false)
      {
        var informer := informers[refs[i]];
        if eventsEnabled {
          informer := informer.(enabled := true);
        }
        informers := informers[refs[i] := informer.(started := true)];
      }
    }

    method AddNamespace(ns: Namespace, failAt: Option<nat>)
      modifies `informers, `varyingInformers, `cancelForNs
      ensures State() == NsAdded(old(State()), ns, !(failAt.Some? && failAt.value < State().perNamespace))
    {
      if ns in staticNamespaces {
        return;
      }
      if ns in varyingInformers {
        return;
      }
      ghost var start := |informers|;
      var refs, ok := CreateInformersForNamespace(ns, failAt);
      varyingInformers := varyingInformers[ns := refs];
      cancelForNs := cancelForNs[ns := refs];
      assert informers[start..] == Generation(ns, |refs|, false, false);
      StartInformers(refs, ns, |informers| - |refs|);
    }

    method DeleteNamespace(ns: Namespace)
      modifies `informers, `varyingInformers, `cancelForNs
      ensures State() == NsDeleted(old(State()), ns)
    {
      if ns in staticNamespaces {
        return;
      }
      if ns !in cancelForNs {
        return;
      }
      informers := Cancelled(informers, cancelForNs[ns]);
      varyingInformers := varyingInformers - {ns};
      cancelForNs := cancelForNs - {ns};
    }

    /** Enable the informers of one list. */
    method EnableInformers(refs: seq<InformerRef>)
      requires forall k :: k in refs ==> k < |informers|
      modifies `informers
      ensures |informers| == |old(informers)|
      ensures forall k :: 0 <= k < |informers| ==>
                informers[k] == if k in refs then old(informers[k]).(enabled := true) else old(informers[k])
    {
      for i := 0 to |refs|
        invariant |informers| == |old(informers)|
        invariant forall k :: 0 <= k < |informers| ==>
                    informers[k] == if k in refs[..i] then old(informers[k]).(enabled := true) else old(informers[k])
      {
        assert refs[i] in refs && refs[..i + 1] == refs[..i] + [refs[i]];
        informers := informers[refs[i] := informers[refs[i]].(enabled := true)];
      }
      assert refs[..|refs|] == refs;
    }

    method EnableKubeEventCb()
      requires Inv(State())
      modifies `informers, `eventsEnabled
      ensures State() == Next(old(State()), Step.EnableKubeEventCb)
    {
      ghost var w := State();
      EnableInformers(resourceInformers);
      var todo := varyingInformers.Keys;
      while todo != {}
        invariant todo <= varyingInformers.Keys && |informers| == |w.informers|
        invariant forall k :: 0 <= k < |informers| ==>
                    informers[k] == if InUse(w, k) && w.informers[k].namespace !in todo then w.informers[k].(enabled := true) else w.informers[k]
        decreases |todo|
      {
        var ns :| ns in todo;
        EnableInformers(varyingInformers[ns]);
        todo := todo - {ns};
      }
      assert informers == EnabledInformers(w).informers;
      eventsEnabled := true;
    }
  }
}
