/** pkg/hook/config: the snapshots that bindings of one group share. The end of `ConvertAndCheck`
    (config_v1.go) merges the names of a group's kubernetes bindings into `includeSnapshotsFrom` of
    every binding of the group; `MergeArrays` (util.go) does one merge. */
module HookConfigV1 {
  import opened Common

  datatype BindingType = OnStartup | Schedule | OnKubernetesEvent | KubernetesValidating | KubernetesMutating | KubernetesConversion

  datatype BindingConfig = BindingConfig(bindingName: string, group: string, includeSnapshotsFrom: seq<string>)

  datatype HookConfig = HookConfig(
    onKubernetesEvents: seq<BindingConfig>,
    schedules: seq<BindingConfig>,
    kubernetesValidating: seq<BindingConfig>,
    kubernetesMutating: seq<BindingConfig>,
    kubernetesConversion: seq<BindingConfig>)
  {
    /** The bindings of one type; OnStartup has no snapshots. */
    function Bindings(t: BindingType): seq<BindingConfig> {
      match t
      case OnStartup => []
      case Schedule => schedules
      case OnKubernetesEvent => onKubernetesEvents
      case KubernetesValidating => kubernetesValidating
      case KubernetesMutating => kubernetesMutating
      case KubernetesConversion => kubernetesConversion
    }
  }

  // ---------------------------------------------------------------------
  // MergeArrays

  /** The elements of `xs` that are not in `seen`, each once, at its first place. */
  function NewOnes(xs: seq<string>, seen: set<string>): seq<string> {
    if xs == [] then []
    else if xs[0] in seen then NewOnes(xs[1..], seen)
    else [xs[0]] + NewOnes(xs[1..], seen + {xs[0]})
  }

  function Merged(a1: seq<string>, a2: seq<string>): seq<string> {
    a1 + NewOnes(a2, Elements(a1))
  }

  lemma {:induction false} NewOnesElements(xs: seq<string>, seen: set<string>)
    ensures Elements(NewOnes(xs, seen)) == Elements(xs) - seen
    ensures NoDuplicates(NewOnes(xs, seen))
  {
    if xs != [] {
      assert Elements(xs) == {xs[0]} + Elements(xs[1..]);
      if xs[0] in seen {
        NewOnesElements(xs[1..], seen);
      } else {
        var rest := NewOnes(xs[1..], seen + {xs[0]});
        NewOnesElements(xs[1..], seen + {xs[0]});
        assert Elements([xs[0]] + rest) == {xs[0]} + Elements(rest);
        assert xs[0] !in Elements(rest);
      }
    }
  }

  /** What a merge contains, that it keeps the first list as it is, and when its elements are unique:
      the comment in the source promises unique elements, which holds if and only if the first list
      has none twice. */
  lemma MergeIsUnion(a1: seq<string>, a2: seq<string>)
    ensures a1 <= Merged(a1, a2)
    ensures Elements(Merged(a1, a2)) == Elements(a1) + Elements(a2)
    ensures NoDuplicates(Merged(a1, a2)) <==> NoDuplicates(a1)
  {
    var added := NewOnes(a2, Elements(a1));
    NewOnesElements(a2, Elements(a1));
    assert Elements(a1 + added) == Elements(a1) + Elements(added);
    if NoDuplicates(a1) {
      forall i, j | 0 <= i < j < |a1 + added|
        ensures (a1 + added)[i] != (a1 + added)[j]
      {
        if i < |a1| <= j {
          assert added[j - |a1|] in Elements(added);
        }
      }
    }
    if NoDuplicates(a1 + added) {
      forall i, j | 0 <= i < j < |a1|
        ensures a1[i] != a1[j]
      {
        assert (a1 + added)[i] != (a1 + added)[j];
      }
    }
  }

  /** The place of the first occurrence. */
  function FirstIndex(xs: seq<string>, x: string): (i: nat)
    requires x in xs
    ensures i < |xs| && xs[i] == x && x !in xs[..i]
  {
    if xs[0] == x then 0
    else
      var i := FirstIndex(xs[1..], x);
      assert xs[..i + 1] == [xs[0]] + xs[1..][..i];
      i + 1
  }

  lemma {:induction false} NewOnesInOrder(xs: seq<string>, seen: set<string>, i: nat, j: nat)
    requires i < j < |NewOnes(xs, seen)|
    ensures
      var r := NewOnes(xs, seen);
      r[i] in xs && r[j] in xs && FirstIndex(xs, r[i]) < FirstIndex(xs, r[j])
  {
    var r := NewOnes(xs, seen);
    NewOnesElements(xs, seen);
    assert r[i] in Elements(r) && r[j] in Elements(r);
    if xs[0] in seen {
      NewOnesInOrder(xs[1..], seen, i, j);
    } else if i > 0 {
      NewOnesInOrder(xs[1..], seen + {xs[0]}, i - 1, j - 1);
      assert r[0] == xs[0] && r[0] != r[i] && r[0] != r[j];
    }
  }

  /** The order is kept: what the second list adds is behind the first, by first occurrence. */
  lemma MergeKeepsOrder(a1: seq<string>, a2: seq<string>, i: nat, j: nat)
    requires |a1| <= i < j < |Merged(a1, a2)|
    ensures
      var r := Merged(a1, a2);
      && r[..|a1|] == a1 && r[i] !in a1 && r[i] in a2 && r[j] in a2
      && FirstIndex(a2, r[i]) < FirstIndex(a2, r[j])
  {
    var added := NewOnes(a2, Elements(a1));
    NewOnesInOrder(a2, Elements(a1), i - |a1|, j - |a1|);
    NewOnesElements(a2, Elements(a1));
    assert added[i - |a1|] in Elements(added);
  }

  lemma {:induction false} NewOnesSnoc(xs: seq<string>, x: string, seen: set<string>)
    ensures NewOnes(xs + [x], seen) == NewOnes(xs, seen) + (if x in seen + Elements(xs) then [] else [x])
    decreases |xs|
  {
    if xs == [] {
      assert [x][1..] == [];
    } else {
      assert (xs + [x])[1..] == xs[1..] + [x];
      assert Elements(xs) == {xs[0]} + Elements(xs[1..]);
      NewOnesSnoc(xs[1..], x, if xs[0] in seen then seen else seen + {xs[0]});
      if xs[0] !in seen {
        assert seen + {xs[0]} + Elements(xs[1..]) == seen + Elements(xs);
      } else {
        assert seen + Elements(xs[1..]) == seen + Elements(xs);
      }
    }
  }

  method MergeArrays(a1: seq<string>, a2: seq<string>) returns (res: seq<string>)
    ensures res == Merged(a1, a2)
  {
    var union: map<string, bool> := map[];
    for i := 0 to |a2|
      invariant union.Keys == Elements(a2[..i]) && forall a :: a in union ==> union[a]
    {
      union := union[a2[i] := true];
    }
    assert a2[..|a2|] == a2;
    res := [];
    for i := 0 to |a1|
      invariant res == a1[..i]
      invariant union.Keys == Elements(a2) + Elements(a1[..i])
      invariant forall a :: a in union ==> (union[a] <==> a !in a1[..i])
    {
      res := res + [a1[i]];
      union := union[a1[i] := false];
    }
    assert a1[..|a1|] == a1;
    for i := 0 to |a2|
      invariant res == Merged(a1, a2[..i])
      invariant union.Keys == Elements(a2) + Elements(a1)
      invariant forall a :: a in union ==> (union[a] <==> a !in a1 && a !in a2[..i])
    {
      NewOnesSnoc(a2[..i], a2[i], Elements(a1));
      assert a2[..i + 1] == a2[..i] + [a2[i]];
      assert a2[i] in Elements(a2);
      if union[a2[i]] {
        res := res + [a2[i]];
        union := union[a2[i] := false];
      }
    }
    assert a2[..|a2|] == a2;
  }

  // ---------------------------------------------------------------------
  // Group snapshots

  /** The names of the bindings of one group, in order. */
  function GroupNames(kube: seq<BindingConfig>, group: string): seq<string> {
    if kube == [] then []
    else
      var last := kube[|kube| - 1];
      GroupNames(kube[..|kube| - 1], group) + (if last.group == group then [last.bindingName] else [])
  }

  lemma {:induction false} GroupNamesElements(kube: seq<BindingConfig>, group: string)
    ensures forall n :: n in GroupNames(kube, group) <==> exists b :: b in kube && b.group == group && b.bindingName == n
  {
    if kube != [] {
      var init, last := kube[..|kube| - 1], kube[|kube| - 1];
      GroupNamesElements(init, group);
      assert kube == init + [last];
      forall n | n in GroupNames(kube, group)
        ensures exists b :: b in kube && b.group == group && b.bindingName == n
      {
        if n in GroupNames(init, group) {
          var b :| b in init && b.group == group && b.bindingName == n;
          assert b in kube;
        } else {
          assert last in kube;
        }
      }
    }
  }

  /** A binding of a group that has kubernetes bindings includes all their snapshots. */
  function WithGroupSnapshots(kube: seq<BindingConfig>, b: BindingConfig): BindingConfig {
    if b.group != "" && GroupNames(kube, b.group) != []
    then b.(includeSnapshotsFrom := Merged(b.includeSnapshotsFrom, GroupNames(kube, b.group)))
    else b
  }

  function AllWithGroupSnapshots(kube: seq<BindingConfig>, bs: seq<BindingConfig>): (r: seq<BindingConfig>)
    ensures |r| == |bs|
    ensures forall i :: 0 <= i < |bs| ==> r[i] == WithGroupSnapshots(kube, bs[i])
  {
    seq(|bs|, i requires 0 <= i < |bs| => WithGroupSnapshots(kube, bs[i]))
  }

  /** The config after the end of ConvertAndCheck. */
  function Converted(c: HookConfig): HookConfig {
    var kube := c.onKubernetesEvents;
    HookConfig(AllWithGroupSnapshots(kube, kube),
               AllWithGroupSnapshots(kube, c.schedules),
               AllWithGroupSnapshots(kube, c.kubernetesValidating),
               AllWithGroupSnapshots(kube, c.kubernetesMutating),
               AllWithGroupSnapshots(kube, c.kubernetesConversion))
  }

  /** Every binding keeps its name, its group and its own list, and includes every kubernetes binding
      of its group. */
  lemma GroupSharesSnapshots(c: HookConfig, t: BindingType, i: nat)
    requires i < |c.Bindings(t)|
    ensures |Converted(c).Bindings(t)| == |c.Bindings(t)|
    ensures
      var b, r := c.Bindings(t)[i], Converted(c).Bindings(t)[i];
      && r.bindingName == b.bindingName && r.group == b.group && (b.group == "" ==> r == b)
      && b.includeSnapshotsFrom <= r.includeSnapshotsFrom
      && (forall k :: k in c.onKubernetesEvents && k.group == b.group && b.group != "" ==> k.bindingName in r.includeSnapshotsFrom)
      && (forall n :: n in r.includeSnapshotsFrom ==>
            n in b.includeSnapshotsFrom || exists k :: k in c.onKubernetesEvents && k.group == b.group && k.bindingName == n)
  {
    var b, r := c.Bindings(t)[i], Converted(c).Bindings(t)[i];
    assert r == WithGroupSnapshots(c.onKubernetesEvents, b);
    var names := GroupNames(c.onKubernetesEvents, b.group);
    GroupNamesElements(c.onKubernetesEvents, b.group);
    MergeIsUnion(b.includeSnapshotsFrom, names);
    forall n
      ensures n in Merged(b.includeSnapshotsFrom, names) <==> n in b.includeSnapshotsFrom || n in names
    {
      assert n in Elements(Merged(b.includeSnapshotsFrom, names)) <==> n in Elements(b.includeSnapshotsFrom) + Elements(names);
    }
  }

  method MergeGroupSnapshots(groupSnapshots: map<string, seq<string>>, kube: seq<BindingConfig>, bs: seq<BindingConfig>)
    returns (res: seq<BindingConfig>)
    requires forall g :: g in groupSnapshots <==> g != "" && GroupNames(kube, g) != []
    requires forall g :: g in groupSnapshots ==> groupSnapshots[g] == GroupNames(kube, g)
    ensures res == AllWithGroupSnapshots(kube, bs)
  {
    res := [];
    for i := 0 to |bs|
      invariant res == AllWithGroupSnapshots(kube, bs)[..i]
    {
      var cfg := bs[i];
      if cfg.group in groupSnapshots {
        var names := MergeArrays(cfg.includeSnapshotsFrom, groupSnapshots[cfg.group]);
        cfg := cfg.(includeSnapshotsFrom := names);
      }
      res := res + [cfg];
    }
  }

  /** The last part of ConvertAndCheck: collect the names of each group, then update every binding. */
  method ConvertGroups(c: HookConfig) returns (r: HookConfig)
    ensures r == Converted(c)
  {
    var kube := c.onKubernetesEvents;
    var groupSnapshots: map<string, seq<string>> := map[];
    for i := 0 to |kube|
      invariant forall g :: g in groupSnapshots <==> g != "" && GroupNames(kube[..i], g) != []
      invariant forall g :: g in groupSnapshots ==> groupSnapshots[g] == GroupNames(kube[..i], g)
    {
      assert kube[..i + 1][..i] == kube[..i];
      var kubeCfg := kube[i];
      if kubeCfg.group == "" {
        continue;
      }
      if kubeCfg.group !in groupSnapshots {
        groupSnapshots := groupSnapshots[kubeCfg.group := []];
      }
      groupSnapshots := groupSnapshots[kubeCfg.group := groupSnapshots[kubeCfg.group] + [kubeCfg.bindingName]];
    }
    assert kube[..|kube|] == kube;
    var newKubeEvents := MergeGroupSnapshots(groupSnapshots, kube, kube);
    var newSchedules := MergeGroupSnapshots(groupSnapshots, kube, c.schedules);
    var newValidating := MergeGroupSnapshots(groupSnapshots, kube, c.kubernetesValidating);
    var newMutating := MergeGroupSnapshots(groupSnapshots, kube, c.kubernetesMutating);
    var newConversion := MergeGroupSnapshots(groupSnapshots, kube, c.kubernetesConversion);
    r := HookConfig(newKubeEvents, newSchedules, newValidating, newMutating, newConversion);
  }
}
