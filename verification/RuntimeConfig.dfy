/** pkg/config/config.go: parameters whose values can be overridden for a while, and handlers that are
    called with every change.

    The clock is a parameter of the operations. A call for a name that is not registered ends in a nil
    pointer panic after the values were changed; the model records it. */
module RuntimeConfig {
  import opened Common

  type Name = string
  datatype Error = Error(message: string)

  type OnChange = (string, string) -> Option<Error>
  type ForceDuration = (string, string) -> int

  datatype Parameter = Parameter(defaultValue: string, onChange: Option<OnChange>, forceDuration: Option<ForceDuration>)

  type Params = map<Name, Parameter>

  datatype TemporalValue = TemporalValue(value: string, expire: int)

  datatype Store = Store(values: map<Name, string>, temporalValues: map<Name, TemporalValue>)

  /** What a call of `onChange` is told. */
  datatype Change = Change(name: Name, oldValue: string, newValue: string)

  /** All of the configuration, and beside it the calls of handlers so far. */
  datatype State = State(
    params: Params,
    store: Store,
    errors: map<Name, Option<Error>>,
    calls: seq<Change>,
    panicked: bool)

  /** value */
  function Value(params: Params, s: Store, name: Name): string {
    if name !in params then ""
    else if name in s.temporalValues then s.temporalValues[name].value
    else Plain(params, s, name)
  }

  /** The value without overrides. */
  function Plain(params: Params, s: Store, name: Name): string
    requires name in params
  {
    if name in s.values then s.values[name] else params[name].defaultValue
  }

  datatype Operation =
    | Set(name: Name, value: string, now: int)
    | SetTemporarily(name: Name, value: string, duration: int, now: int)
    | Unset(name: Name)
    | ExpireOverrides(now: int)

  /** callForceDuration */
  function Forced(params: Params, s: Store, name: Name, value: string): int {
    if name !in params || params[name].forceDuration.None? then 0
    else (params[name].forceDuration.value)(Value(params, s, name), value)
  }

  function SetUntil(s: Store, name: Name, value: string, expire: int): Store {
    s.(temporalValues := s.temporalValues[name := TemporalValue(value, expire)])
  }

  function SetForever(s: Store, name: Name, value: string): Store {
    Store(s.values[name := value], s.temporalValues - {name})
  }

  function Cleared(s: Store, name: Name): Store {
    Store(s.values - {name}, s.temporalValues - {name})
  }

  predicate Expired(s: Store, name: Name, now: int) {
    name in s.temporalValues && s.temporalValues[name].expire < now
  }

  function WithoutExpired(s: Store, now: int): Store {
    s.(temporalValues := map n | n in s.temporalValues && !Expired(s, n, now) :: s.temporalValues[n])
  }

  /** The locked part of an operation. */
  function Next(params: Params, s: Store, op: Operation): Store {
    match op
    case Set(name, value, now) =>
      var d := Forced(params, s, name, value);
      if d > 0 then SetUntil(s, name, value, now + d) else SetForever(s, name, value)
    case SetTemporarily(name, value, duration, now) => SetUntil(s, name, value, now + duration)
    case Unset(name) => Cleared(s, name)
    case ExpireOverrides(now) => WithoutExpired(s, now)
  }

  /** The expired overrides outside `todo` are collected. */
  ghost predicate Collected(params: Params, s: Store, now: int, cs: seq<Change>, todo: set<Name>) {
    && OncePerName(cs)
    && (forall n :: Expired(s, n, now) && n !in todo <==> Mentions(cs, n))
    && (forall k :: 0 <= k < |cs| ==>
          cs[k] == Change(cs[k].name, Value(params, s, cs[k].name), Value(params, WithoutExpired(s, now), cs[k].name)))
  }

  /** The changes an operation reports: its own, or one for each expired override, in any order. */
  ghost predicate Reports(params: Params, s: Store, op: Operation, cs: seq<Change>) {
    var s' := Next(params, s, op);
    match op
    case Set(name, value, _) => cs == [Change(name, Value(params, s, name), value)]
    case SetTemporarily(name, _, _, _) => cs == [Change(name, Value(params, s, name), Value(params, s', name))]
    case Unset(name) => cs == [Change(name, Value(params, s, name), Value(params, s', name))]
    case ExpireOverrides(now) => Collected(params, s, now, cs, {})
  }

  predicate Mentions(cs: seq<Change>, name: Name) {
    exists k :: 0 <= k < |cs| && cs[k].name == name
  }

  predicate OncePerName(cs: seq<Change>) {
    forall j, k :: 0 <= j < k < |cs| ==> cs[j].name != cs[k].name
  }

  lemma CollectOne(params: Params, s: Store, now: int, cs: seq<Change>, todo: set<Name>, name: Name)
    requires Collected(params, s, now, cs, todo) && name in todo && Expired(s, name, now)
    ensures
      var c := Change(name, Value(params, s, name), Value(params, WithoutExpired(s, now), name));
      Collected(params, s, now, cs + [c], todo - {name})
  {
    var c := Change(name, Value(params, s, name), Value(params, WithoutExpired(s, now), name));
    assert !Mentions(cs, name);
    forall n
      ensures Mentions(cs + [c], n) <==> Mentions(cs, n) || n == name
    {
      MentionsSnoc(cs, c, n);
    }
  }

  /** callOnChange */
  function Notified(st: State, c: Change): State {
    if st.panicked then st
    else if c.name !in st.params then st.(panicked := true)
    else if st.params[c.name].onChange.None? then st
    else
      var err := (st.params[c.name].onChange.value)(c.oldValue, c.newValue);
      st.(calls := st.calls + [c], errors := st.errors[c.name := err])
  }

  function NotifiedAll(st: State, cs: seq<Change>): State {
    if cs == [] then st else Notified(NotifiedAll(st, cs[..|cs| - 1]), cs[|cs| - 1])
  }

  /** A whole operation. */
  ghost predicate Steps(st: State, op: Operation, st': State) {
    exists cs :: Reports(st.params, st.store, op, cs)
      && st' == NotifiedAll(st.(store := Next(st.params, st.store, op)), cs)
  }

  // ---------------------------------------------------------------------
  // The trace of a parameter

  /** What the handler of one parameter was told. */
  function Trace(calls: seq<Change>, name: Name): seq<Change> {
    if calls == [] then []
    else
      var last := calls[|calls| - 1];
      Trace(calls[..|calls| - 1], name) + (if last.name == name then [last] else [])
  }

  /** The changes lead from one value to the other without a gap. */
  predicate Chain(from: string, cs: seq<Change>, to: string) {
    if cs == [] then from == to
    else cs[|cs| - 1].newValue == to && Chain(from, cs[..|cs| - 1], cs[|cs| - 1].oldValue)
  }

  predicate HasHandler(st: State, name: Name) {
    name in st.params && st.params[name].onChange.Some?
  }

  /** The handler was told all changes from `from` to the current value, and LastError is about the last of them. */
  predicate Traced(from: string, st: State, name: Name)
    requires HasHandler(st, name)
  {
    var trace := Trace(st.calls, name);
    && Chain(from, trace, Value(st.params, st.store, name))
    && (trace != [] ==> ErrorIsOf(st, name, trace[|trace| - 1]))
  }

  /** Only registered parameters are overridden, so that nothing panics. */
  predicate Sound(st: State) {
    !st.panicked && forall n :: n in st.store.temporalValues ==> n in st.params
  }

  predicate IsRegistered(params: Params, op: Operation) {
    op.ExpireOverrides? || op.name in params
  }

  /** The changes that an operation reports are those of the values, and there are no others. */
  lemma ReportsAreTrue(params: Params, s: Store, op: Operation, cs: seq<Change>, name: Name)
    requires Reports(params, s, op, cs) && name in params && IsRegistered(params, op)
    ensures OncePerName(cs)
    ensures forall k :: 0 <= k < |cs| && cs[k].name == name ==>
              cs[k] == Change(name, Value(params, s, name), Value(params, Next(params, s, op), name))
    ensures !Mentions(cs, name) ==> Value(params, s, name) == Value(params, Next(params, s, op), name)
  {
    if !op.ExpireOverrides? {
      assert cs[0].name == op.name;
    }
  }

  /** LastError of the parameter is about this change. */
  predicate ErrorIsOf(st: State, name: Name, c: Change)
    requires HasHandler(st, name)
  {
    name in st.errors && st.errors[name] == (st.params[name].onChange.value)(c.oldValue, c.newValue)
  }

  lemma NotifiedOne(st: State, c: Change, name: Name)
    requires !st.panicked && HasHandler(st, name) && c.name in st.params
    ensures
      var st' := Notified(st, c);
      && !st'.panicked && st'.params == st.params && st'.store == st.store
      && Trace(st'.calls, name) == Trace(st.calls, name) + (if c.name == name then [c] else [])
      && (c.name == name ==> ErrorIsOf(st', name, c))
      && (c.name != name ==> forall d :: ErrorIsOf(st', name, d) <==> ErrorIsOf(st, name, d))
  {
    var st' := Notified(st, c);
    if st'.calls != st.calls {
      assert st'.calls[..|st'.calls| - 1] == st.calls;
    }
  }

  /** Notifying of changes, each name at most once, extends the chain by the one for this name. */
  lemma {:induction false} NotifyingExtendsTrace(st: State, cs: seq<Change>, name: Name, c: Change)
    requires !st.panicked && HasHandler(st, name) && OncePerName(cs) && c.name == name
    requires forall k :: 0 <= k < |cs| ==> cs[k].name in st.params
    requires forall k :: 0 <= k < |cs| && cs[k].name == name ==> cs[k] == c
    ensures
      var st' := NotifiedAll(st, cs);
      && !st'.panicked && st'.params == st.params && st'.store == st.store
      && Trace(st'.calls, name) == Trace(st.calls, name) + (if Mentions(cs, name) then [c] else [])
      && (Mentions(cs, name) ==> ErrorIsOf(st', name, c))
      && (!Mentions(cs, name) ==> forall d :: ErrorIsOf(st', name, d) <==> ErrorIsOf(st, name, d))
  {
    if cs != [] {
      var init, last := cs[..|cs| - 1], cs[|cs| - 1];
      assert cs == init + [last];
      NotifyingExtendsTrace(st, init, name, c);
      MentionsSnoc(init, last, name);
      NotifiedOne(NotifiedAll(st, init), last, name);
    }
  }

  lemma MentionsSnoc(init: seq<Change>, last: Change, name: Name)
    ensures Mentions(init + [last], name) <==> Mentions(init, name) || last.name == name
  {
    var cs := init + [last];
    assert cs[|init|] == last;
    if Mentions(init, name) {
      var k :| 0 <= k < |init| && init[k].name == name;
      assert cs[k].name == name;
    }
  }

  /** An operation on registered parameters keeps every handler informed. */
  lemma StepKeepsTraced(st: State, op: Operation, st': State, name: Name, from: string)
    requires Sound(st) && HasHandler(st, name) && Traced(from, st, name)
    requires Steps(st, op, st') && IsRegistered(st.params, op)
    ensures st'.params == st.params && st'.store == Next(st.params, st.store, op)
    ensures Sound(st') && Traced(from, st', name)
  {
    var cs: seq<Change> :| Reports(st.params, st.store, op, cs) && st' == NotifiedAll(st.(store := Next(st.params, st.store, op)), cs);
    ReportsAreTrue(st.params, st.store, op, cs, name);
    var locked := st.(store := Next(st.params, st.store, op));
    forall k | 0 <= k < |cs|
      ensures cs[k].name in st.params
    {
      if op.ExpireOverrides? {
        assert Mentions(cs, cs[k].name);
      }
    }
    var v, v' := Value(st.params, st.store, name), Value(st.params, locked.store, name);
    NotifyingExtendsTrace(locked, cs, name, Change(name, v, v'));
    var trace, trace' := Trace(st.calls, name), Trace(st'.calls, name);
    if Mentions(cs, name) {
      assert trace'[..|trace'| - 1] == trace;
    } else {
      assert trace' == trace;
    }
  }

  /** Over every run of operations on registered parameters, the calls of a handler lead from the value at the
      start to the current one without a gap. */
  lemma {:induction false} RunKeepsTraced(states: seq<State>, ops: seq<Operation>, name: Name, from: string)
    requires |states| == |ops| + 1
    requires Sound(states[0]) && HasHandler(states[0], name) && Traced(from, states[0], name)
    requires forall i :: 0 <= i < |ops| ==> Steps(states[i], ops[i], states[i + 1]) && IsRegistered(states[0].params, ops[i])
    ensures states[|ops|].params == states[0].params && Sound(states[|ops|]) && Traced(from, states[|ops|], name)
  {
    if ops != [] {
      StepKeepsTraced(states[0], ops[0], states[1], name, from);
      RunKeepsTraced(states[1..], ops[1..], name, from);
    }
  }

  /** Register: the first registration stays. */
  function Registered(st: State, name: Name, p: Parameter): State {
    if name in st.params then st else st.(params := st.params[name := p])
  }

  lemma FirstRegistrationStays(st: State, name: Name, p: Parameter, again: Parameter)
    ensures
      var r := Registered(Registered(st, name, p), name, again);
      && r == Registered(st, name, p) && r.store == st.store && r.calls == st.calls && r.errors == st.errors
      && name in r.params && r.params[name] == (if name in st.params then st.params[name] else p)
      && (forall other :: other != name ==> (other in r.params <==> other in st.params)
                                            && (other in st.params ==> r.params[other] == st.params[other]))
  {
  }

  /** A new parameter's chain starts at its default, if and only if nothing else was stored for the name before. */
  lemma RegisteredStartsAtDefaultIff(st: State, name: Name, p: Parameter)
    requires name !in st.params && p.onChange.Some? && Trace(st.calls, name) == []
    ensures
      Traced(p.defaultValue, Registered(st, name, p), name)
      <==> (name in st.store.temporalValues ==> st.store.temporalValues[name].value == p.defaultValue)
           && (name !in st.store.temporalValues && name in st.store.values ==> st.store.values[name] == p.defaultValue)
  {
  }

  /** Handlers are called outside of the lock. When two Sets are told in the wrong order, the trace is a chain
      only if nothing changed at all. */
  lemma LateCallBreaksChain(params: Params, s: Store, name: Name, a: string, b: string)
    requires name in params
    ensures
      var old_ := Value(params, s, name);
      var s1 := SetForever(s, name, a);
      var s2 := SetForever(s1, name, b);
      var first, second := Change(name, old_, a), Change(name, Value(params, s1, name), b);
      && Chain(old_, [first, second], Value(params, s2, name))
      && (Chain(old_, [second, first], Value(params, s2, name)) <==> old_ == a == b)
  {
    var old_ := Value(params, s, name);
    var first, second := Change(name, old_, a), Change(name, a, b);
    assert [first, second][..1] == [first] && [second, first][..1] == [second];
    assert [first][..0] == [] && [second][..0] == [];
    assert Chain(old_, [first], a);
    assert Chain(old_, [second], old_) <==> b == old_ && Chain(old_, [second][..0], a);
  }

  // ---------------------------------------------------------------------
  // Overrides

  function Run(params: Params, s: Store, ops: seq<Operation>): Store
    decreases |ops|
  {
    if ops == [] then s else Run(params, Next(params, s, ops[0]), ops[1..])
  }

  predicate LeavesAlone(ops: seq<Operation>, name: Name) {
    forall i :: 0 <= i < |ops| ==> ops[i].ExpireOverrides? || ops[i].name != name
  }

  /** The overrides that end at this time are dropped by one of the operations. */
  predicate ExpiresIn(ops: seq<Operation>, expire: int) {
    exists i :: 0 <= i < |ops| && ops[i].ExpireOverrides? && ops[i].now > expire
  }

  lemma ExpiresInCons(ops: seq<Operation>, expire: int)
    requires ops != []
    ensures ExpiresIn(ops, expire) <==> (ops[0].ExpireOverrides? && ops[0].now > expire) || ExpiresIn(ops[1..], expire)
  {
    if i :| 0 <= i < |ops| && ops[i].ExpireOverrides? && ops[i].now > expire {
      assert i > 0 ==> ops[1..][i - 1] == ops[i];
    }
    if i :| 0 <= i < |ops[1..]| && ops[1..][i].ExpireOverrides? && ops[1..][i].now > expire {
      assert ops[i + 1] == ops[1..][i];
    }
  }

  /** Meanwhile an override of the parameter stays until it expires. */
  lemma {:induction false} OthersLeaveAlone(params: Params, s: Store, ops: seq<Operation>, name: Name)
    requires name in params && LeavesAlone(ops, name)
    ensures
      var end := Run(params, s, ops);
      && Plain(params, end, name) == Plain(params, s, name)
      && (name in end.temporalValues <==> name in s.temporalValues && !ExpiresIn(ops, s.temporalValues[name].expire))
      && (name in end.temporalValues ==> end.temporalValues[name] == s.temporalValues[name])
    decreases |ops|
  {
    if ops != [] {
      assert LeavesAlone(ops[1..], name);
      OthersLeaveAlone(params, Next(params, s, ops[0]), ops[1..], name);
      if name in s.temporalValues {
        ExpiresInCons(ops, s.temporalValues[name].expire);
      }
    }
  }

  /** The value of a parameter is told by the last operation on it. Unset leaves the default; a Set its value; an
      override, or a Set whose duration is forced, its value until the first expiry after its end, and from then
      on what was set below it. */
  lemma ValueOfLastOperation(params: Params, s: Store, op: Operation, rest: seq<Operation>, name: Name)
    requires name in params && !op.ExpireOverrides? && op.name == name && LeavesAlone(rest, name)
    ensures
      var end, below := Run(params, Next(params, s, op), rest), Plain(params, s, name);
      match op
      case Unset(_) =>
        Value(params, end, name) == Plain(params, end, name) == params[name].defaultValue
      case SetTemporarily(_, v, duration, now) =>
        && Value(params, end, name) == (if ExpiresIn(rest, now + duration) then below else v)
        && Plain(params, end, name) == below
      case Set(_, v, now) =>
        var duration :=
          match params[name].forceDuration
          case Some(force) => force(Value(params, s, name), v)
          case None => 0;
        if duration > 0 then
          && Value(params, end, name) == (if ExpiresIn(rest, now + duration) then below else v)
          && Plain(params, end, name) == below
        else Value(params, end, name) == Plain(params, end, name) == v
  {
    OthersLeaveAlone(params, Next(params, s, op), rest, name);
  }

  /** Set does the same for these two durations. */
  predicate SameForce(d: int, d': int) {
    d == d' || (d <= 0 && d' <= 0)
  }

  /** What is forced for the parameter is the same when either of these values is replaced. */
  ghost predicate SameForces(params: Params, name: Name, o: string, o': string) {
    name in params && params[name].forceDuration.Some? ==>
      var force := params[name].forceDuration.value;
      forall v :: SameForce(force(o, v), force(o', v))
  }

  /** In this store the override replaces no longer one, and what is forced under it is what is forced without it:
      over the current value, and over the value after an override that expires earlier. */
  ghost predicate Harmless(params: Params, s: Store, name: Name, t: TemporalValue) {
    && (name in s.temporalValues ==> s.temporalValues[name].expire <= t.expire)
    && (name in params ==> SameForces(params, name, t.value, Value(params, s, name)))
    && (name in params && name in s.temporalValues && s.temporalValues[name].expire < t.expire ==>
          SameForces(params, name, t.value, Plain(params, s, name)))
  }

  /** The same store, or one with and one without this override. */
  ghost predicate SameBut(params: Params, s: Store, s': Store, name: Name, t: TemporalValue) {
    s == s' || (s == SetUntil(s', name, t.value, t.expire) && Harmless(params, s', name, t))
  }

  lemma ExpiryKeepsSameBut(params: Params, s: Store, s': Store, now: int, name: Name, t: TemporalValue)
    requires SameBut(params, s, s', name, t)
    ensures SameBut(params, WithoutExpired(s, now), WithoutExpired(s', now), name, t)
    ensures t.expire < now ==> WithoutExpired(s, now) == WithoutExpired(s', now)
  {
    if s != s' {
      var r, r' := WithoutExpired(s, now), WithoutExpired(s', now);
      if t.expire < now {
        assert r.temporalValues == r'.temporalValues;
      } else {
        assert r.temporalValues == r'.temporalValues[name := t];
      }
    }
  }

  /** An operation on the parameter itself replaces the override or drops it. */
  lemma OwnOperationEqualizes(params: Params, s: Store, op: Operation, name: Name, t: TemporalValue)
    requires Harmless(params, s, name, t) && !op.ExpireOverrides? && op.name == name
    ensures Next(params, SetUntil(s, name, t.value, t.expire), op) == Next(params, s, op)
  {
    var over := SetUntil(s, name, t.value, t.expire);
    assert op.Set? ==> SameForce(Forced(params, over, name, op.value), Forced(params, s, name, op.value));
    var r, r' := Next(params, over, op), Next(params, s, op);
    assert over.temporalValues - {name} == s.temporalValues - {name};
    assert r.temporalValues == r'.temporalValues;
  }

  lemma OtherOperationKeepsOverride(params: Params, s: Store, op: Operation, name: Name, t: TemporalValue)
    requires Harmless(params, s, name, t) && !op.ExpireOverrides? && op.name != name
    ensures
      var s' := Next(params, s, op);
      Next(params, SetUntil(s, name, t.value, t.expire), op) == SetUntil(s', name, t.value, t.expire) && Harmless(params, s', name, t)
  {
    var r, r' := Next(params, SetUntil(s, name, t.value, t.expire), op), Next(params, s, op);
    assert r.temporalValues == r'.temporalValues[name := t];
  }

  lemma StepKeepsSameBut(params: Params, s: Store, s': Store, op: Operation, name: Name, t: TemporalValue)
    requires SameBut(params, s, s', name, t)
    ensures SameBut(params, Next(params, s, op), Next(params, s', op), name, t)
  {
    if op.ExpireOverrides? {
      ExpiryKeepsSameBut(params, s, s', op.now, name, t);
    } else if s != s' && op.name == name {
      OwnOperationEqualizes(params, s', op, name, t);
    } else if s != s' {
      OtherOperationKeepsOverride(params, s', op, name, t);
    }
  }

  lemma {:induction false} RunKeepsSameBut(params: Params, s: Store, s': Store, ops: seq<Operation>, name: Name, t: TemporalValue)
    requires SameBut(params, s, s', name, t)
    ensures SameBut(params, Run(params, s, ops), Run(params, s', ops), name, t)
    decreases |ops|
  {
    if ops != [] {
      StepKeepsSameBut(params, s, s', ops[0], name, t);
      RunKeepsSameBut(params, Next(params, s, ops[0]), Next(params, s', ops[0]), ops[1..], name, t);
    }
  }

  /** Set an override, do something else, and let it expire: the result is that without the override. */
  ghost predicate LeavesNothing(params: Params, s: Store, name: Name, value: string, duration: int, set_: int,
                                ops: seq<Operation>, now: int)
  {
    var overridden := Next(params, s, SetTemporarily(name, value, duration, set_));
    Next(params, Run(params, overridden, ops), ExpireOverrides(now)) == Next(params, Run(params, s, ops), ExpireOverrides(now))
  }

  lemma HarmlessLeavesNothing(params: Params, s: Store, name: Name, value: string, duration: int, set_: int,
                              ops: seq<Operation>, now: int)
    requires Harmless(params, s, name, TemporalValue(value, set_ + duration)) && set_ + duration < now
    ensures LeavesNothing(params, s, name, value, duration, set_, ops, now)
  {
    var overridden, t := Next(params, s, SetTemporarily(name, value, duration, set_)), TemporalValue(value, set_ + duration);
    RunKeepsSameBut(params, overridden, s, ops, name, t);
    ExpiryKeepsSameBut(params, Run(params, overridden, ops), Run(params, s, ops), now, name, t);
  }

  /** The new override replaces a longer one: as soon as it expires, both are gone. */
  lemma LongerOverrideIsLost(params: Params, s: Store, name: Name, value: string, duration: int, set_: int)
    requires name in s.temporalValues && s.temporalValues[name].expire > set_ + duration
    ensures !LeavesNothing(params, s, name, value, duration, set_, [], set_ + duration + 1)
  {
    var overridden, now := Next(params, s, SetTemporarily(name, value, duration, set_)), set_ + duration + 1;
    assert name !in WithoutExpired(overridden, now).temporalValues;
    assert name in WithoutExpired(s, now).temporalValues;
  }

  /** Such a pair: the first override would hold until 100, the second ends both. */
  lemma ShortOverrideEndsLongOne(params: Params, name: Name, a: string, b: string)
    requires name in params
    ensures
      var s := Store(map[], map[name := TemporalValue(a, 100)]);
      var overridden := Next(params, s, SetTemporarily(name, b, 1, 10));
      && !LeavesNothing(params, s, name, b, 1, 10, [], 20)
      && Value(params, Next(params, s, ExpireOverrides(20)), name) == a
      && Value(params, Next(params, overridden, ExpireOverrides(20)), name) == params[name].defaultValue
  {
    var s := Store(map[], map[name := TemporalValue(a, 100)]);
    var overridden := Next(params, s, SetTemporarily(name, b, 1, 10));
    assert name !in WithoutExpired(overridden, 20).temporalValues;
    assert name in WithoutExpired(s, 20).temporalValues;
  }

  /** A Set over two different values. */
  lemma DifferentForceStays(params: Params, s: Store, s': Store, name: Name, v: string, now: int)
    requires !SameForce(Forced(params, s, name, v), Forced(params, s', name, v))
    ensures
      var r, r' := Next(params, s, Set(name, v, now)), Next(params, s', Set(name, v, now));
      WithoutExpired(r, now) != WithoutExpired(r', now)
  {
    var d, d' := Forced(params, s, name, v), Forced(params, s', name, v);
    var r, r' := WithoutExpired(Next(params, s, Set(name, v, now)), now), WithoutExpired(Next(params, s', Set(name, v, now)), now);
    assert name in r.temporalValues <==> d > 0;
    assert name in r'.temporalValues <==> d' > 0;
    assert d > 0 ==> r.temporalValues[name].expire == now + d;
    assert d' > 0 ==> r'.temporalValues[name].expire == now + d';
  }

  /** A Set whose forced duration differs under the override. */
  lemma DependentForceLeavesTrace(params: Params, s: Store, name: Name, t: TemporalValue, v: string)
    requires name in params && params[name].forceDuration.Some?
    requires var force := params[name].forceDuration.value; !SameForce(force(t.value, v), force(Value(params, s, name), v))
    ensures !LeavesNothing(params, s, name, t.value, 0, t.expire, [Set(name, v, t.expire + 1)], t.expire + 1)
  {
    var set_ := Set(name, v, t.expire + 1);
    var overridden := Next(params, s, SetTemporarily(name, t.value, 0, t.expire));
    assert [set_][1..] == [];
    assert Run(params, overridden, [set_]) == Next(params, overridden, set_);
    assert Run(params, s, [set_]) == Next(params, s, set_);
    DifferentForceStays(params, overridden, s, name, v, t.expire + 1);
  }

  /** The same behind the expiry of an earlier override. */
  lemma DependentForceLeavesTraceLater(params: Params, s: Store, name: Name, t: TemporalValue, v: string)
    requires name in params && params[name].forceDuration.Some?
    requires name in s.temporalValues && s.temporalValues[name].expire < t.expire
    requires var force := params[name].forceDuration.value; !SameForce(force(t.value, v), force(Plain(params, s, name), v))
    ensures !LeavesNothing(params, s, name, t.value, 0, t.expire,
                           [ExpireOverrides(t.expire), Set(name, v, t.expire + 1)], t.expire + 1)
  {
    var expire, set_ := ExpireOverrides(t.expire), Set(name, v, t.expire + 1);
    var overridden := Next(params, s, SetTemporarily(name, t.value, 0, t.expire));
    var o, s1 := WithoutExpired(overridden, t.expire), WithoutExpired(s, t.expire);
    assert [expire, set_][1..] == [set_] && [set_][1..] == [];
    assert Run(params, o, [set_]) == Next(params, o, set_) && Run(params, s1, [set_]) == Next(params, s1, set_);
    assert Run(params, overridden, [expire, set_]) == Next(params, o, set_);
    assert Run(params, s, [expire, set_]) == Next(params, s1, set_);
    assert name in o.temporalValues && name !in s1.temporalValues;
    DifferentForceStays(params, o, s1, name, v, t.expire + 1);
  }

  /** Only the sum of the two times matters. */
  lemma LeavesNothingUntil(params: Params, s: Store, name: Name, value: string, duration: int, set_: int,
                           ops: seq<Operation>, now: int)
    ensures LeavesNothing(params, s, name, value, duration, set_, ops, now)
            == LeavesNothing(params, s, name, value, 0, set_ + duration, ops, now)
  {
  }

  /** An override has left nothing behind after it expired, whatever happened meanwhile: all values are those that
      would hold had it never been set. This is so if and only if it replaces no override that holds longer, and
      what is forced under it is what is forced over each value that would hold without it. */
  lemma ExpiredOverrideLeavesNothingIff(params: Params, s: Store, name: Name, value: string, duration: int, set_: int)
    ensures
      (forall ops: seq<Operation>, now | set_ + duration < now ::
         LeavesNothing(params, s, name, value, duration, set_, ops, now))
      <==> Harmless(params, s, name, TemporalValue(value, set_ + duration))
  {
    var t := TemporalValue(value, set_ + duration);
    if Harmless(params, s, name, t) {
      forall ops: seq<Operation>, now | set_ + duration < now
        ensures LeavesNothing(params, s, name, value, duration, set_, ops, now)
      {
        HarmlessLeavesNothing(params, s, name, value, duration, set_, ops, now);
      }
    } else if name in s.temporalValues && s.temporalValues[name].expire > t.expire {
      LongerOverrideIsLost(params, s, name, value, duration, set_);
    } else {
      var force := params[name].forceDuration.value;
      var now := t.expire + 1;
      if v :| !SameForce(force(value, v), force(Value(params, s, name), v)) {
        DependentForceLeavesTrace(params, s, name, t, v);
        LeavesNothingUntil(params, s, name, value, duration, set_, [Set(name, v, now)], now);
      } else {
        var v :| !SameForce(force(value, v), force(Plain(params, s, name), v));
        DependentForceLeavesTraceLater(params, s, name, t, v);
        LeavesNothingUntil(params, s, name, value, duration, set_, [ExpireOverrides(t.expire), Set(name, v, now)], now);
      }
    }
  }

  /** What is forced for the parameter does not depend on the value that is replaced. */
  ghost predicate ForceIgnoresOld(params: Params, name: Name) {
    forall o, o' :: SameForces(params, name, o, o')
  }

  /** Then only a longer override that is replaced makes a difference. */
  lemma OverrideLeavesNothingIffLongest(params: Params, s: Store, name: Name, value: string, duration: int, set_: int)
    requires ForceIgnoresOld(params, name)
    ensures
      (forall ops: seq<Operation>, now | set_ + duration < now ::
         LeavesNothing(params, s, name, value, duration, set_, ops, now))
      <==> (name in s.temporalValues ==> s.temporalValues[name].expire <= set_ + duration)
  {
    ExpiredOverrideLeavesNothingIff(params, s, name, value, duration, set_);
  }

  /** Over all stores and overrides: each that replaces no longer one leaves nothing behind, if and only if what is
      forced for the parameter does not depend on the value that is replaced. */
  lemma OverridesLeaveNothingIff(params: Params, name: Name)
    ensures
      (forall s: Store, value, duration, set_, ops: seq<Operation>, now |
         (name in s.temporalValues ==> s.temporalValues[name].expire <= set_ + duration) && set_ + duration < now ::
         LeavesNothing(params, s, name, value, duration, set_, ops, now))
      <==> ForceIgnoresOld(params, name)
  {
    if ForceIgnoresOld(params, name) {
      forall s: Store, value, duration, set_, ops: seq<Operation>, now |
        (name in s.temporalValues ==> s.temporalValues[name].expire <= set_ + duration) && set_ + duration < now
        ensures LeavesNothing(params, s, name, value, duration, set_, ops, now)
      {
        HarmlessLeavesNothing(params, s, name, value, duration, set_, ops, now);
      }
    } else {
      var force := params[name].forceDuration.value;
      var o, o', v :| !SameForce(force(o, v), force(o', v));
      var s := Store(map[name := o'], map[]);
      DependentForceLeavesTrace(params, s, name, TemporalValue(o, 0), v);
    }
  }

  /** One Set under an override does what it would have done had the override not been set, if and only if the
      forced durations for the two old values agree, or both do not force anything. */
  lemma SetUnderOverrideIff(params: Params, s: Store, name: Name, value: string, override: string, expire: int, now: int)
    requires name in params && params[name].forceDuration.Some?
    ensures
      var force := params[name].forceDuration.value;
      var d, d' := force(override, value), force(Value(params, s, name), value);
      Next(params, SetUntil(s, name, override, expire), Set(name, value, now)) == Next(params, s, Set(name, value, now))
      <==> SameForce(d, d')
  {
    var over := SetUntil(s, name, override, expire);
    if SameForce(Forced(params, over, name, value), Forced(params, s, name, value)) {
      assert over.temporalValues - {name} == s.temporalValues - {name};
    } else {
      DifferentForceStays(params, over, s, name, value, now);
    }
  }

  // ---------------------------------------------------------------------
  // The configuration itself

  class Config {
    var params: Params
    var values: map<Name, string>
    var temporalValues: map<Name, TemporalValue>
    var errors: map<Name, Option<Error>>
    ghost var calls: seq<Change>
    var panicked: bool

    constructor ()
      ensures Fields() == State(map[], Store(map[], map[]), map[], [], false)
    {
      params, values, temporalValues, errors, calls, panicked := map[], map[], map[], map[], [], false;
    }

    ghost function Fields(): State
      reads this
    {
      State(params, Store(values, temporalValues), errors, calls, panicked)
    }

    method Register(name: Name, p: Parameter)
      modifies this
      ensures Fields() == Registered(old(Fields()), name, p)
    {
      if name in params {
        return;
      }
      params := params[name := p];
    }

    method GetValue(name: Name) returns (v: string)
      ensures v == Value(params, Store(values, temporalValues), name)
    {
      if name !in params {
        return "";
      }
      if name in temporalValues {
        return temporalValues[name].value;
      }
      if name in values {
        return values[name];
      }
      v := params[name].defaultValue;
    }

    method CallOnChange(name: Name, oldValue: string, newValue: string)
      modifies `errors, `calls, `panicked
      ensures Fields() == Notified(old(Fields()), Change(name, oldValue, newValue))
    {
      if panicked {
        return;
      }
      if name !in params {
        panicked := true;
        return;
      }
      if params[name].onChange.None? {
        return;
      }
      var err := (params[name].onChange.value)(oldValue, newValue);
      calls := calls + [Change(name, oldValue, newValue)];
      errors := errors - {name};
      errors := errors[name := err];
    }

    method CallForceDuration(name: Name, newValue: string) returns (d: int)
      ensures d == Forced(params, Store(values, temporalValues), name, newValue)
    {
      if name !in params || params[name].forceDuration.None? {
        return 0;
      }
      var oldValue := GetValue(name);
      d := (params[name].forceDuration.value)(oldValue, newValue);
    }

    method Set(name: Name, value: string, now: int)
      modifies this
      ensures Steps(old(Fields()), Operation.Set(name, value, now), Fields())
    {
      ghost var st, op := Fields(), Operation.Set(name, value, now);
      var forceDuration := CallForceDuration(name, value);
      if forceDuration > 0 {
        SetTemporarily(name, value, forceDuration, now);
        ForcedSetIsTemporary(st, name, value, now, Fields());
        return;
      }
      var oldValue := GetValue(name);
      temporalValues := temporalValues - {name};
      values := values[name := value];
      CallOnChange(name, oldValue, value);
      OneReport(st, op, Change(name, oldValue, value), Fields());
    }

    method Unset(name: Name)
      modifies this
      ensures Steps(old(Fields()), Operation.Unset(name), Fields())
    {
      ghost var st := Fields();
      var oldValue := GetValue(name);
      values := values - {name};
      temporalValues := temporalValues - {name};
      var newValue := GetValue(name);
      CallOnChange(name, oldValue, newValue);
      OneReport(st, Operation.Unset(name), Change(name, oldValue, newValue), Fields());
    }

    method SetTemporarily(name: Name, value: string, duration: int, now: int)
      modifies this
      ensures Steps(old(Fields()), Operation.SetTemporarily(name, value, duration, now), Fields())
    {
      ghost var st := Fields();
      var oldValue := GetValue(name);
      temporalValues := temporalValues - {name};
      temporalValues := temporalValues[name := TemporalValue(value, now + duration)];
      var newValue := GetValue(name);
      assert Store(values, temporalValues).temporalValues == Next(params, st.store, Operation.SetTemporarily(name, value, duration, now)).temporalValues;
      CallOnChange(name, oldValue, newValue);
      OneReport(st, Operation.SetTemporarily(name, value, duration, now), Change(name, oldValue, newValue), Fields());
    }

    /** The body of the loop for one expired override of the store `s`. */
    method ExpireOne(name: Name, ghost s: Store, ghost now: int) returns (change: Change)
      requires values == s.values && name in temporalValues && Expired(s, name, now) && temporalValues[name] == s.temporalValues[name]
      modifies `temporalValues
      ensures temporalValues == old(temporalValues) - {name}
      ensures change == Change(name, Value(params, s, name), Value(params, WithoutExpired(s, now), name))
    {
      var oldValue := GetValue(name);
      temporalValues := temporalValues - {name};
      var newValue := GetValue(name);
      change := Change(name, oldValue, newValue);
    }

    /** The locked loop of expireOverrides. */
    method CollectExpired(now: int) returns (expires: seq<Change>)
      modifies `temporalValues
      ensures Fields().store == Next(params, old(Fields()).store, Operation.ExpireOverrides(now))
      ensures Reports(params, old(Fields()).store, Operation.ExpireOverrides(now), expires)
    {
      ghost var s := Fields().store;
      expires := [];
      var todo := temporalValues.Keys;
      while todo != {}
        invariant todo <= s.temporalValues.Keys
        invariant temporalValues == map n | n in s.temporalValues && (n in todo || !Expired(s, n, now)) :: s.temporalValues[n]
        invariant Collected(params, s, now, expires, todo)
        decreases |todo|
      {
        var name :| name in todo;
        if temporalValues[name].expire < now {
          var change := ExpireOne(name, s, now);
          CollectOne(params, s, now, expires, todo, name);
          expires := expires + [change];
        }
        todo := todo - {name};
      }
    }

    method ExpireOverrides(now: int)
      modifies this
      ensures Steps(old(Fields()), Operation.ExpireOverrides(now), Fields())
    {
      ghost var st := Fields();
      if temporalValues == map[] {
        assert Reports(st.params, st.store, Operation.ExpireOverrides(now), []);
        assert st == NotifiedAll(st.(store := Next(params, st.store, Operation.ExpireOverrides(now))), []);
        return;
      }
      var expires := CollectExpired(now);
      ghost var locked := Fields();
      for i := 0 to |expires|
        invariant Fields() == NotifiedAll(locked, expires[..i])
      {
        assert expires[..i + 1][..i] == expires[..i];
        CallOnChange(expires[i].name, expires[i].oldValue, expires[i].newValue);
      }
      assert expires[..|expires|] == expires;
    }
  }

  lemma OneReport(st: State, op: Operation, c: Change, st': State)
    requires Reports(st.params, st.store, op, [c])
    requires st' == Notified(st.(store := Next(st.params, st.store, op)), c)
    ensures Steps(st, op, st')
  {
    var locked := st.(store := Next(st.params, st.store, op));
    assert [c][..0] == [];
    assert NotifiedAll(locked, [c]) == Notified(NotifiedAll(locked, []), c);
  }

  /** A forced duration turns Set into SetTemporarily. */
  lemma ForcedSetIsTemporary(st: State, name: Name, value: string, now: int, st': State)
    requires Forced(st.params, st.store, name, value) > 0
    requires Steps(st, Operation.SetTemporarily(name, value, Forced(st.params, st.store, name, value), now), st')
    ensures Steps(st, Operation.Set(name, value, now), st')
  {
    var d := Forced(st.params, st.store, name, value);
    var cs :| Reports(st.params, st.store, Operation.SetTemporarily(name, value, d, now), cs)
      && st' == NotifiedAll(st.(store := Next(st.params, st.store, Operation.SetTemporarily(name, value, d, now))), cs);
    assert Reports(st.params, st.store, Operation.Set(name, value, now), cs);
  }
}
