/** pkg/schedule_manager/schedule_manager.go and pkg/hook/controller/schedule_bindings_controller.go: hooks
    share one cron function per crontab, which is installed as long as some binding needs it.

    Which crontabs `cron.AddFunc` can parse is a parameter. */
module ScheduleManager {
  import opened Common

  type Crontab = string
  type Id = string
  type EntryId = nat
  type Parses = Crontab -> bool

  datatype ScheduleEntry = ScheduleEntry(crontab: Crontab, id: Id)

  /** `ids` are the keys of the source's map from ids to true. */
  datatype CronEntry = CronEntry(entryId: EntryId, ids: set<Id>)

  /** The manager's entries and, of the cron library, the installed functions and the next entry id. */
  datatype Manager = Manager(entries: map<Crontab, CronEntry>, functions: map<EntryId, Crontab>, nextId: EntryId)

  /** Add accepts the crontab. */
  predicate Accepted(parses: Parses, crontab: Crontab) {
    crontab != "" && parses(crontab)
  }

  function Added(parses: Parses, m: Manager, e: ScheduleEntry): Manager {
    if e.crontab == "" then m
    else if e.crontab in m.entries then
      var entry := m.entries[e.crontab];
      m.(entries := m.entries[e.crontab := entry.(ids := entry.ids + {e.id})])
    else if !parses(e.crontab) then m
    else
      Manager(m.entries[e.crontab := CronEntry(m.nextId, {e.id})], m.functions[m.nextId := e.crontab], m.nextId + 1)
  }

  function Removed(m: Manager, e: ScheduleEntry): Manager {
    if e.crontab !in m.entries || e.id !in m.entries[e.crontab].ids then m
    else
      var entry := m.entries[e.crontab];
      var ids := entry.ids - {e.id};
      if ids == {} then m.(entries := m.entries - {e.crontab}, functions := m.functions - {entry.entryId})
      else m.(entries := m.entries[e.crontab := entry.(ids := ids)])
  }

  /** A cron function fires for the crontab. */
  ghost predicate Armed(m: Manager, crontab: Crontab) {
    exists f :: FiresFor(m, f, crontab)
  }

  predicate FiresFor(m: Manager, f: EntryId, crontab: Crontab) {
    f in m.functions && m.functions[f] == crontab
  }

  /** One function for each crontab with an entry, and each entry has a live id. */
  ghost predicate OneFunctionEach(parses: Parses, m: Manager) {
    && (forall c :: c in m.entries ==>
          && Accepted(parses, c) && m.entries[c].ids != {}
          && m.entries[c].entryId in m.functions && m.functions[m.entries[c].entryId] == c)
    && (forall f :: f in m.functions ==>
          f < m.nextId && m.functions[f] in m.entries && m.entries[m.functions[f]].entryId == f)
  }

  lemma AddKeepsOneFunctionEach(parses: Parses, m: Manager, e: ScheduleEntry)
    requires OneFunctionEach(parses, m)
    ensures OneFunctionEach(parses, Added(parses, m, e))
  {
  }

  lemma RemoveKeepsOneFunctionEach(parses: Parses, m: Manager, e: ScheduleEntry)
    requires OneFunctionEach(parses, m)
    ensures OneFunctionEach(parses, Removed(m, e))
  {
  }

  // ---------------------------------------------------------------------
  // The controllers of many hooks on one manager

  datatype ScheduleConfig = ScheduleConfig(
    bindingName: string,
    entry: ScheduleEntry,
    includeSnapshotsFrom: seq<string>,
    allowFailure: bool,
    queue: string,
    group: string)

  datatype Link = Link(
    bindingName: string,
    crontab: Crontab,
    includeSnapshots: seq<string>,
    allowFailure: bool,
    queueName: string,
    group: string)

  function LinkOf(config: ScheduleConfig): Link {
    Link(config.bindingName, config.entry.crontab, config.includeSnapshotsFrom, config.allowFailure, config.queue, config.group)
  }

  datatype Controller = Controller(bindings: seq<ScheduleConfig>, links: map<Id, Link>)

  ghost predicate CanHandleEvent(links: map<Id, Link>, crontab: Crontab) {
    exists id :: id in links && links[id].crontab == crontab
  }

  datatype World = World(manager: Manager, controllers: seq<Controller>)

  /** One binding of one hook is enabled or disabled: one round of the controllers' loops. */
  datatype Step =
    | Enable(hook: nat, binding: nat)
    | Disable(hook: nat, binding: nat)

  predicate Configured(w: World, h: nat, j: nat) {
    h < |w.controllers| && j < |w.controllers[h].bindings|
  }

  function EntryAt(w: World, h: nat, j: nat): ScheduleEntry
    requires Configured(w, h, j)
  {
    w.controllers[h].bindings[j].entry
  }

  predicate Linked(w: World, h: nat, j: nat) {
    Configured(w, h, j) && EntryAt(w, h, j).id in w.controllers[h].links
  }

  function Next(parses: Parses, w: World, s: Step): World
    requires Configured(w, s.hook, s.binding)
  {
    var c := w.controllers[s.hook];
    var config := c.bindings[s.binding];
    match s
    case Enable(h, _) =>
      World(Added(parses, w.manager, config.entry),
            w.controllers[h := c.(links := c.links[config.entry.id := LinkOf(config)])])
    case Disable(h, _) =>
      World(Removed(w.manager, config.entry),
            w.controllers[h := c.(links := c.links - {config.entry.id})])
  }

  predicate SameBindings(w: World, w': World) {
    |w'.controllers| == |w.controllers|
    && forall h :: 0 <= h < |w.controllers| ==> w'.controllers[h].bindings == w.controllers[h].bindings
  }

  predicate CanRun(w: World, run: seq<Step>) {
    forall k :: 0 <= k < |run| ==> Configured(w, run[k].hook, run[k].binding)
  }

  function After(parses: Parses, w: World, run: seq<Step>): (r: World)
    requires CanRun(w, run)
    ensures SameBindings(w, r)
  {
    if run == [] then w else Next(parses, After(parses, w, run[..|run| - 1]), run[|run| - 1])
  }

  /** Schedule ids are generated, so no two bindings share one. */
  ghost predicate UniqueIds(w: World) {
    forall h, j, h', j' :: Configured(w, h, j) && Configured(w, h', j') && EntryAt(w, h, j).id == EntryAt(w, h', j').id
      ==> h == h' && j == j'
  }

  predicate Registered(m: Manager, e: ScheduleEntry) {
    e.crontab in m.entries && e.id in m.entries[e.crontab].ids
  }

  /** The link under an id is that of the binding with this id. */
  predicate LinkFrom(w: World, h: nat, id: Id, j: nat) {
    && Configured(w, h, j) && EntryAt(w, h, j).id == id && id in w.controllers[h].links
    && w.controllers[h].links[id] == LinkOf(w.controllers[h].bindings[j])
  }

  ghost predicate LinksAreBindings(w: World) {
    forall h: nat, id {:trigger w.controllers[h].links[id]} :: h < |w.controllers| && id in w.controllers[h].links ==>
      exists j :: LinkFrom(w, h, id, j)
  }

  /** The manager knows exactly the linked bindings whose crontab it accepts. */
  ghost predicate RegisteredIffLinked(parses: Parses, w: World) {
    && (forall h, j :: Configured(w, h, j) ==>
          (Registered(w.manager, EntryAt(w, h, j)) <==> Linked(w, h, j) && Accepted(parses, EntryAt(w, h, j).crontab)))
    && (forall e: ScheduleEntry :: Registered(w.manager, e) ==> exists h, j :: Configured(w, h, j) && EntryAt(w, h, j) == e)
  }

  ghost predicate Inv(parses: Parses, w: World) {
    UniqueIds(w) && OneFunctionEach(parses, w.manager) && LinksAreBindings(w) && RegisteredIffLinked(parses, w)
  }

  /** What Add and Remove change about who is registered. */
  lemma RegistrationChange(parses: Parses, m: Manager, e: ScheduleEntry, other: ScheduleEntry)
    requires OneFunctionEach(parses, m)
    ensures
      var accepted := other == e && Accepted(parses, e.crontab);
      Registered(Added(parses, m, e), other) <==> Registered(m, other) || accepted
    ensures Registered(Removed(m, e), other) <==> Registered(m, other) && other != e
  {
    if Registered(m, e) && Registered(m, other) && other.crontab == e.crontab && other != e {
      assert other.id in m.entries[e.crontab].ids - {e.id};
    }
  }

  lemma StepKeepsLinks(parses: Parses, w: World, s: Step)
    requires LinksAreBindings(w) && Configured(w, s.hook, s.binding)
    ensures LinksAreBindings(Next(parses, w, s))
  {
    var w' := Next(parses, w, s);
    forall h: nat, id | h < |w'.controllers| && id in w'.controllers[h].links
      ensures exists j :: LinkFrom(w', h, id, j)
    {
      if s.Enable? && h == s.hook && id == EntryAt(w, h, s.binding).id {
        assert LinkFrom(w', h, id, s.binding);
      } else {
        assert id in w.controllers[h].links && w.controllers[h].links[id] == w'.controllers[h].links[id];
        var j :| LinkFrom(w, h, id, j);
        assert LinkFrom(w', h, id, j);
      }
    }
  }

  lemma StepKeepsRegistered(parses: Parses, w: World, s: Step)
    requires Inv(parses, w) && Configured(w, s.hook, s.binding)
    ensures RegisteredIffLinked(parses, Next(parses, w, s))
  {
    var w' := Next(parses, w, s);
    var e := EntryAt(w, s.hook, s.binding);
    forall h, j | Configured(w', h, j)
      ensures Registered(w'.manager, EntryAt(w', h, j)) <==> Linked(w', h, j) && Accepted(parses, EntryAt(w', h, j).crontab)
    {
      assert Configured(w, h, j) && EntryAt(w', h, j) == EntryAt(w, h, j);
      RegistrationChange(parses, w.manager, e, EntryAt(w, h, j));
    }
    forall other: ScheduleEntry | Registered(w'.manager, other)
      ensures exists h, j :: Configured(w', h, j) && EntryAt(w', h, j) == other
    {
      RegistrationChange(parses, w.manager, e, other);
      if other == e {
        assert Configured(w', s.hook, s.binding) && EntryAt(w', s.hook, s.binding) == other;
      } else {
        var h, j :| Configured(w, h, j) && EntryAt(w, h, j) == other;
        assert Configured(w', h, j) && EntryAt(w', h, j) == other;
      }
    }
  }

  lemma StepKeepsInv(parses: Parses, w: World, s: Step)
    requires Inv(parses, w) && Configured(w, s.hook, s.binding)
    ensures Inv(parses, Next(parses, w, s))
  {
    var w' := Next(parses, w, s);
    AddKeepsOneFunctionEach(parses, w.manager, EntryAt(w, s.hook, s.binding));
    RemoveKeepsOneFunctionEach(parses, w.manager, EntryAt(w, s.hook, s.binding));
    StepKeepsLinks(parses, w, s);
    StepKeepsRegistered(parses, w, s);
    assert forall h, j :: Configured(w', h, j) <==> Configured(w, h, j);
    assert forall h, j :: Configured(w, h, j) ==> EntryAt(w', h, j) == EntryAt(w, h, j);
  }

  /** Hooks enable and disable their bindings in any order, again and again, interleaved binding by binding. */
  lemma {:induction false} RunKeepsInv(parses: Parses, w: World, run: seq<Step>)
    requires Inv(parses, w) && CanRun(w, run)
    ensures Inv(parses, After(parses, w, run))
  {
    if run != [] {
      RunKeepsInv(parses, w, run[..|run| - 1]);
      StepKeepsInv(parses, After(parses, w, run[..|run| - 1]), run[|run| - 1]);
    }
  }

  // ---------------------------------------------------------------------
  // What it means

  ghost predicate SomeHookHandles(w: World, crontab: Crontab) {
    exists h: nat :: h < |w.controllers| && CanHandleEvent(w.controllers[h].links, crontab)
  }

  lemma RegisteredIsHandled(parses: Parses, w: World, e: ScheduleEntry)
    requires Inv(parses, w) && Registered(w.manager, e)
    ensures SomeHookHandles(w, e.crontab)
  {
    var h: nat, j: nat :| Configured(w, h, j) && EntryAt(w, h, j) == e;
    assert Linked(w, h, j);
    assert w.controllers[h].links[e.id] == w.controllers[h].links[e.id];
    var j' :| LinkFrom(w, h, e.id, j');
    assert j' == j;
    assert CanHandleEvent(w.controllers[h].links, e.crontab);
  }

  lemma LinkIsRegistered(parses: Parses, w: World, h: nat, id: Id)
    requires Inv(parses, w) && h < |w.controllers| && id in w.controllers[h].links
    requires Accepted(parses, w.controllers[h].links[id].crontab)
    ensures Registered(w.manager, ScheduleEntry(w.controllers[h].links[id].crontab, id))
  {
    var j :| LinkFrom(w, h, id, j);
    assert Linked(w, h, j);
    assert EntryAt(w, h, j) == ScheduleEntry(w.controllers[h].links[id].crontab, id);
  }

  /** A crontab fires if and only if some hook's CanHandleEvent accepts it and cron can parse it. */
  lemma ArmedIffHandled(parses: Parses, w: World, crontab: Crontab)
    requires Inv(parses, w)
    ensures Armed(w.manager, crontab) <==> Accepted(parses, crontab) && SomeHookHandles(w, crontab)
  {
    if Armed(w.manager, crontab) {
      var f :| FiresFor(w.manager, f, crontab);
      var id :| id in w.manager.entries[crontab].ids;
      RegisteredIsHandled(parses, w, ScheduleEntry(crontab, id));
    }
    if Accepted(parses, crontab) && SomeHookHandles(w, crontab) {
      var h: nat :| h < |w.controllers| && CanHandleEvent(w.controllers[h].links, crontab);
      var id :| id in w.controllers[h].links && w.controllers[h].links[id].crontab == crontab;
      LinkIsRegistered(parses, w, h, id);
      assert FiresFor(w.manager, w.manager.entries[crontab].entryId, crontab);
    }
  }

  /** A linked binding with this crontab. */
  predicate LiveBinding(w: World, h: nat, j: nat, crontab: Crontab) {
    Linked(w, h, j) && EntryAt(w, h, j).crontab == crontab
  }

  lemma EntryIsLive(parses: Parses, w: World, crontab: Crontab)
    requires Inv(parses, w) && crontab in w.manager.entries
    ensures exists h, j :: LiveBinding(w, h, j, crontab)
  {
    var id :| id in w.manager.entries[crontab].ids;
    var e := ScheduleEntry(crontab, id);
    assert Registered(w.manager, e);
    var h: nat, j: nat :| Configured(w, h, j) && EntryAt(w, h, j) == e;
    assert LiveBinding(w, h, j, crontab);
  }

  /** A crontab that cron can parse has exactly one function while it has a live binding, and none otherwise. */
  lemma OneFunctionPerCrontab(parses: Parses, w: World, crontab: Crontab)
    requires Inv(parses, w) && Accepted(parses, crontab)
    ensures forall f, g :: FiresFor(w.manager, f, crontab) && FiresFor(w.manager, g, crontab) ==> f == g
    ensures Armed(w.manager, crontab) <==> exists h, j :: LiveBinding(w, h, j, crontab)
  {
    if Armed(w.manager, crontab) {
      var f :| FiresFor(w.manager, f, crontab);
      EntryIsLive(parses, w, crontab);
    }
    if h, j :| LiveBinding(w, h, j, crontab) {
      assert Registered(w.manager, EntryAt(w, h, j));
      assert FiresFor(w.manager, w.manager.entries[crontab].entryId, crontab);
    }
  }

  // ---------------------------------------------------------------------
  // Links and cron functions, judged by the calls alone

  /** The last call for the binding enabled it. */
  predicate LinkedBy(run: seq<Step>, h: nat, j: nat, before: bool) {
    if run == [] then before
    else if run[|run| - 1] == Enable(h, j) then true
    else if run[|run| - 1] == Disable(h, j) then false
    else LinkedBy(run[..|run| - 1], h, j, before)
  }

  /** Over every run of calls by all hooks, a binding is linked if and only if its own last call enabled it; its link
      then has its settings. */
  lemma {:induction false} LinksFollowCalls(parses: Parses, w: World, run: seq<Step>, h: nat, j: nat)
    requires Inv(parses, w) && CanRun(w, run) && Configured(w, h, j)
    ensures Linked(After(parses, w, run), h, j) <==> LinkedBy(run, h, j, Linked(w, h, j))
    ensures
      var w1, b := After(parses, w, run), w.controllers[h].bindings[j];
      Linked(w1, h, j) ==>
        w1.controllers[h].links[b.entry.id] == Link(b.bindingName, b.entry.crontab, b.includeSnapshotsFrom, b.allowFailure, b.queue, b.group)
  {
    RunKeepsInv(parses, w, run);
    var w1 := After(parses, w, run);
    if Linked(w1, h, j) {
      var id := EntryAt(w, h, j).id;
      assert w1.controllers[h].links[id] == w1.controllers[h].links[id];
      var j' :| LinkFrom(w1, h, id, j');
      assert EntryAt(w1, h, j').id == EntryAt(w1, h, j).id;
    }
    if run != [] {
      var init, last := run[..|run| - 1], run[|run| - 1];
      LinksFollowCalls(parses, w, init, h, j);
      RunKeepsInv(parses, w, init);
      StepLinks(parses, After(parses, w, init), last, h, j);
    }
  }

  lemma StepLinks(parses: Parses, w: World, s: Step, h: nat, j: nat)
    requires UniqueIds(w) && Configured(w, s.hook, s.binding) && Configured(w, h, j)
    ensures Linked(Next(parses, w, s), h, j) <==> s == Enable(h, j) || (Linked(w, h, j) && s != Disable(h, j))
  {
  }

  /** The binding has this crontab, and its last call enabled it. */
  predicate EnabledWith(w: World, run: seq<Step>, h: nat, j: nat, crontab: Crontab) {
    && Configured(w, h, j) && w.controllers[h].bindings[j].entry.crontab == crontab
    && LinkedBy(run, h, j, Linked(w, h, j))
  }

  /** A crontab fires if and only if it is not empty, cron can parse it, and there is a binding with it, of any
      hook, whose own last call enabled it. */
  lemma ArmedByCalls(parses: Parses, w: World, run: seq<Step>, crontab: Crontab)
    requires Inv(parses, w) && CanRun(w, run)
    ensures
      Armed(After(parses, w, run).manager, crontab)
      <==> && crontab != "" && parses(crontab)
           && exists h: nat, j: nat :: EnabledWith(w, run, h, j, crontab)
  {
    var w1 := After(parses, w, run);
    RunKeepsInv(parses, w, run);
    forall h: nat, j: nat
      ensures LiveBinding(w1, h, j, crontab) <==> EnabledWith(w, run, h, j, crontab)
    {
      if Configured(w, h, j) {
        LinksFollowCalls(parses, w, run, h, j);
      }
    }
    ArmedIffHandled(parses, w1, crontab);
    if Accepted(parses, crontab) {
      OneFunctionPerCrontab(parses, w1, crontab);
      if h: nat, j: nat :| EnabledWith(w, run, h, j, crontab) {
        assert LiveBinding(w1, h, j, crontab);
      }
      if h: nat, j: nat :| LiveBinding(w1, h, j, crontab) {
        assert EnabledWith(w, run, h, j, crontab);
      }
    }
  }

  /** Unique ids are needed: when two hooks share an entry, disabling one disarms the other. */
  lemma SharedIdDisarms(parses: Parses, config: ScheduleConfig)
    requires Accepted(parses, config.entry.crontab)
    ensures
      var c := Controller([config], map[]);
      var w := World(Manager(map[], map[], 0), [c, c]);
      var w1 := After(parses, w, [Enable(0, 0), Enable(1, 0), Disable(0, 0)]);
      CanHandleEvent(w1.controllers[1].links, config.entry.crontab) && !Armed(w1.manager, config.entry.crontab)
  {
    var c := Controller([config], map[]);
    var w := World(Manager(map[], map[], 0), [c, c]);
    var run := [Enable(0, 0), Enable(1, 0), Disable(0, 0)];
    assert run[..2][..1][..0] == [] && After(parses, w, []) == w;
    assert run[..2] == [Enable(0, 0), Enable(1, 0)] && run[..2][..1] == [Enable(0, 0)];
    var w1 := After(parses, w, run[..2][..1]);
    assert w1 == Next(parses, w, Enable(0, 0));
    var w2 := After(parses, w, run[..2]);
    assert w2 == Next(parses, w1, Enable(1, 0));
    var w3 := After(parses, w, run);
    assert w3 == Next(parses, w2, Disable(0, 0));
    assert config.entry.id in w3.controllers[1].links;
  }

  // ---------------------------------------------------------------------
  // The manager and the controllers themselves

  class ScheduleManager {
    const parses: Parses
    var entries: map<Crontab, CronEntry>
    /** The cron library: the installed functions. */
    var functions: map<EntryId, Crontab>
    var nextId: EntryId

    constructor (parses: Parses)
      ensures this.parses == parses && Fields() == Manager(map[], map[], 0)
    {
      this.parses, entries, functions, nextId := parses, map[], map[], 0;
    }

    ghost function Fields(): Manager
      reads this
    {
      Manager(entries, functions, nextId)
    }

    method Add(newEntry: ScheduleEntry)
      modifies this
      ensures Fields() == Added(parses, old(Fields()), newEntry)
    {
      if newEntry.crontab == "" {
        return;
      }
      var hasCronEntry := newEntry.crontab in entries;
      if !hasCronEntry {
        if !parses(newEntry.crontab) {
          return;
        }
        var entryId := nextId;
        functions := functions[entryId := newEntry.crontab];
        nextId := nextId + 1;
        entries := entries[newEntry.crontab := CronEntry(entryId, {newEntry.id})];
      }
      if hasCronEntry {
        var entry := entries[newEntry.crontab];
        if newEntry.id !in entry.ids {
          entries := entries[newEntry.crontab := entry.(ids := entry.ids + {newEntry.id})];
        } else {
          assert entry.ids + {newEntry.id} == entry.ids;
        }
      }
    }

    method Remove(delEntry: ScheduleEntry)
      modifies this
      ensures Fields() == Removed(old(Fields()), delEntry)
    {
      if delEntry.crontab !in entries {
        return;
      }
      var entry := entries[delEntry.crontab];
      if delEntry.id !in entry.ids {
        return;
      }
      entries := entries[delEntry.crontab := entry.(ids := entry.ids - {delEntry.id})];
      if entries[delEntry.crontab].ids == {} {
        functions := functions - {entries[delEntry.crontab].entryId};
        entries := entries - {delEntry.crontab};
      }
    }
  }

  /** The steps of one whole call. */
  function Enables(h: nat, n: nat): seq<Step> {
    seq(n, j requires 0 <= j => Enable(h, j))
  }

  function Disables(h: nat, n: nat): seq<Step> {
    seq(n, j requires 0 <= j => Disable(h, j))
  }

  class ScheduleBindingsController {
    const scheduleManager: ScheduleManager
    var scheduleLinks: map<Id, Link>
    var scheduleBindings: seq<ScheduleConfig>

    constructor (scheduleManager: ScheduleManager, scheduleBindings: seq<ScheduleConfig>)
      ensures this.scheduleManager == scheduleManager
      ensures Fields() == Controller(scheduleBindings, map[])
    {
      this.scheduleManager, scheduleLinks, this.scheduleBindings := scheduleManager, map[], scheduleBindings;
    }

    ghost function Fields(): Controller
      reads this
    {
      Controller(scheduleBindings, scheduleLinks)
    }

    /** All hooks as this controller, number `h`, sees them. */
    ghost function Hooks(others: seq<Controller>, h: nat): World
      requires h < |others|
      reads this, scheduleManager
    {
      World(scheduleManager.Fields(), others[h := Fields()])
    }

    /** One round of the loop of EnableScheduleBindings. */
    method EnableBinding(i: nat, ghost others: seq<Controller>, ghost h: nat)
      requires h < |others| && i < |scheduleBindings|
      modifies this`scheduleLinks, scheduleManager
      ensures Hooks(others, h) == Next(scheduleManager.parses, old(Hooks(others, h)), Enable(h, i))
    {
      var config := scheduleBindings[i];
      scheduleLinks := scheduleLinks[config.entry.id := LinkOf(config)];
      scheduleManager.Add(config.entry);
      assert Hooks(others, h).controllers == old(Hooks(others, h)).controllers[h := Fields()];
    }

    /** One round of the loop of DisableScheduleBindings. */
    method DisableBinding(i: nat, ghost others: seq<Controller>, ghost h: nat)
      requires h < |others| && i < |scheduleBindings|
      modifies this`scheduleLinks, scheduleManager
      ensures Hooks(others, h) == Next(scheduleManager.parses, old(Hooks(others, h)), Disable(h, i))
    {
      var config := scheduleBindings[i];
      scheduleManager.Remove(config.entry);
      scheduleLinks := scheduleLinks - {config.entry.id};
      assert Hooks(others, h).controllers == old(Hooks(others, h)).controllers[h := Fields()];
    }

    method EnableScheduleBindings(ghost others: seq<Controller>, ghost h: nat)
      requires h < |others|
      modifies this`scheduleLinks, scheduleManager
      ensures Hooks(others, h) == After(scheduleManager.parses, old(Hooks(others, h)), Enables(h, |scheduleBindings|))
    {
      for i := 0 to |scheduleBindings|
        invariant Hooks(others, h) == After(scheduleManager.parses, old(Hooks(others, h)), Enables(h, i))
      {
        assert Enables(h, i + 1)[..i] == Enables(h, i);
        EnableBinding(i, others, h);
      }
    }

    method DisableScheduleBindings(ghost others: seq<Controller>, ghost h: nat)
      requires h < |others|
      modifies this`scheduleLinks, scheduleManager
      ensures Hooks(others, h) == After(scheduleManager.parses, old(Hooks(others, h)), Disables(h, |scheduleBindings|))
    {
      for i := 0 to |scheduleBindings|
        invariant Hooks(others, h) == After(scheduleManager.parses, old(Hooks(others, h)), Disables(h, i))
      {
        assert Disables(h, i + 1)[..i] == Disables(h, i);
        DisableBinding(i, others, h);
      }
    }

    method CanHandle(crontab: Crontab) returns (can: bool)
      ensures can <==> CanHandleEvent(scheduleLinks, crontab)
    {
      var todo := scheduleLinks.Keys;
      while todo != {}
        invariant todo <= scheduleLinks.Keys
        invariant forall id :: id in scheduleLinks && id !in todo ==> scheduleLinks[id].crontab != crontab
        decreases |todo|
      {
        var id :| id in todo;
        if scheduleLinks[id].crontab == crontab {
          return true;
        }
        todo := todo - {id};
      }
      can := false;
    }

    /** The links of the binding execution infos: every link with this crontab once, in the order of the map. */
    method HandleEvent(crontab: Crontab) returns (res: seq<Link>, ghost ids: seq<Id>)
      ensures NoDuplicates(ids) && forall id :: id in ids <==> id in scheduleLinks && scheduleLinks[id].crontab == crontab
      ensures |res| == |ids| && forall k :: 0 <= k < |res| ==> ids[k] in scheduleLinks && res[k] == scheduleLinks[ids[k]]
      ensures res != [] <==> CanHandleEvent(scheduleLinks, crontab)
    {
      res, ids := [], [];
      var todo := scheduleLinks.Keys;
      while todo != {}
        invariant todo <= scheduleLinks.Keys && NoDuplicates(ids)
        invariant forall id :: id in ids <==> id in scheduleLinks && id !in todo && scheduleLinks[id].crontab == crontab
        invariant |res| == |ids| && forall k :: 0 <= k < |res| ==> ids[k] in scheduleLinks && res[k] == scheduleLinks[ids[k]]
        decreases |todo|
      {
        var id :| id in todo;
        if scheduleLinks[id].crontab == crontab {
          res, ids := res + [scheduleLinks[id]], ids + [id];
        }
        todo := todo - {id};
      }
      if res != [] {
        assert ids[0] in ids;
      }
    }
  }
}
