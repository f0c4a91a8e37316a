/** pkg/metric/collector.go: a counter whose values are stored under a hash of their label values, while
    the set of labels grows. It behaves as a map from label assignments to values.

    The hash is a parameter; what it must not do is collide on the label values in use. */
module Collector {
  import opened Common
  import opened Labels

  datatype GroupedCounterMetric = GroupedCounterMetric(value: u64, labelValues: seq<Bytes>, group: string)

  type Collection = map<u64, GroupedCounterMetric>

  type Hash = Bytes -> u64

  /** The fields of a collector. */
  datatype State = State(labelNames: seq<Bytes>, collection: Collection)

  /** HashLabelValues */
  function HashOf(hash: Hash, labelValues: seq<Bytes>): u64 {
    hash(Encoded(labelValues))
  }

  function NameSet(labelNames: seq<Bytes>): set<Bytes> {
    set n | n in labelNames
  }

  predicate SortedNames(labelNames: seq<Bytes>) {
    Sorted(labelNames) && NoDuplicates(labelNames)
  }

  /** Every metric has one value for each name and is stored under the hash of its values. */
  ghost predicate Keyed(hash: Hash, s: State) {
    forall h :: h in s.collection ==>
      |s.collection[h].labelValues| == |s.labelNames| && h == HashOf(hash, s.collection[h].labelValues)
  }

  // ---------------------------------------------------------------------
  // The reference: a map from label assignments

  type Assignment = map<Bytes, Bytes>

  datatype Entry = Entry(value: u64, group: string)

  type Reference = map<Assignment, Entry>

  function RefAdd(ref: Reference, a: Assignment, group: string, value: u64): Reference {
    ref[a := if a in ref then Entry(AddU64(ref[a].value, value), ref[a].group) else Entry(value, group)]
  }

  function RefExpire(ref: Reference, group: string): Reference {
    map a | a in ref && ref[a].group != group :: ref[a]
  }

  /** The values under which an assignment is stored. */
  function ValuesOf(s: State, a: Assignment): seq<Bytes> {
    LabelValues(a, s.labelNames)
  }

  predicate Expressible(s: State, a: Assignment) {
    IsAssignment(a) && forall n :: n in a ==> n in s.labelNames
  }

  /** The collection holds this entry for this assignment. */
  predicate Stored(hash: Hash, s: State, a: Assignment, e: Entry) {
    var h := HashOf(hash, ValuesOf(s, a));
    h in s.collection && s.collection[h] == GroupedCounterMetric(e.value, ValuesOf(s, a), e.group)
  }

  /** The assignment of a stored metric. */
  function KeyOf(s: State, m: GroupedCounterMetric): Assignment
    requires |m.labelValues| == |s.labelNames|
  {
    AssignmentOf(s.labelNames, m.labelValues)
  }

  /** The collection holds exactly the entries of the reference. */
  ghost predicate Represents(hash: Hash, s: State, ref: Reference) {
    && Keyed(hash, s)
    && (forall a :: a in ref ==> Expressible(s, a) && Stored(hash, s, a, ref[a]))
    && (forall h {:trigger KeyOf(s, s.collection[h])} :: h in s.collection ==> KeyOf(s, s.collection[h]) in ref)
  }

  /** An assignment to the names is given back by its values. */
  lemma ExpressibleRoundTrip(s: State, a: Assignment)
    requires Expressible(s, a)
    ensures AssignmentOf(s.labelNames, ValuesOf(s, a)) == a
  {
    ValuesRoundTrip(a, s.labelNames);
    assert Restricted(a, s.labelNames) == a;
  }

  lemma EntryDetermined(hash: Hash, s: State, ref: Reference, ref': Reference, a: Assignment)
    requires Represents(hash, s, ref) && Represents(hash, s, ref') && a in ref
    ensures a in ref' && ref[a] == ref'[a]
  {
    ExpressibleRoundTrip(s, a);
    var h := HashOf(hash, ValuesOf(s, a));
    assert Stored(hash, s, a, ref[a]);
    assert KeyOf(s, s.collection[h]) == a;
    assert Stored(hash, s, a, ref'[a]);
  }

  /** A reference is determined by the collection. */
  lemma RepresentedOnce(hash: Hash, s: State, ref: Reference, ref': Reference)
    requires Represents(hash, s, ref) && Represents(hash, s, ref')
    ensures ref == ref'
  {
    forall a | a in ref
      ensures a in ref' && ref[a] == ref'[a]
    {
      EntryDetermined(hash, s, ref, ref', a);
    }
    forall a | a in ref'
      ensures a in ref
    {
      EntryDetermined(hash, s, ref', ref, a);
    }
  }

  // ---------------------------------------------------------------------
  // Add and ExpireGroupMetrics

  function Added(hash: Hash, s: State, group: string, value: u64, labels: map<Bytes, Bytes>): State {
    var labelValues := LabelValues(labels, s.labelNames);
    var h := HashOf(hash, labelValues);
    var stored :=
      if h !in s.collection then GroupedCounterMetric(value, labelValues, group)
      else s.collection[h].(value := AddU64(s.collection[h].value, value));
    s.(collection := s.collection[h := stored])
  }

  /** The values do not share their hash with other values in the collection. */
  predicate NoCollision(hash: Hash, s: State, labelValues: seq<Bytes>) {
    var h := HashOf(hash, labelValues);
    h in s.collection ==> s.collection[h].labelValues == labelValues
  }

  /** Add looks at the assignment that the names can express of its labels. */
  lemma AddedAssignment(s: State, labels: map<Bytes, Bytes>)
    requires NoDuplicates(s.labelNames)
    ensures
      var values, a := LabelValues(labels, s.labelNames), Restricted(labels, s.labelNames);
      Expressible(s, a) && ValuesOf(s, a) == values && AssignmentOf(s.labelNames, values) == a
  {
    var values := LabelValues(labels, s.labelNames);
    ValuesRoundTrip(labels, s.labelNames);
    AssignmentRoundTrip(s.labelNames, values);
  }

  lemma OthersHashElsewhere(hash: Hash, s: State, ref: Reference, a: Assignment, b: Assignment)
    requires Represents(hash, s, ref) && Expressible(s, a) && NoCollision(hash, s, ValuesOf(s, a))
    requires b in ref && b != a
    ensures HashOf(hash, ValuesOf(s, b)) != HashOf(hash, ValuesOf(s, a))
  {
    ExpressibleRoundTrip(s, a);
    ExpressibleRoundTrip(s, b);
    assert Stored(hash, s, b, ref[b]);
  }

  lemma KnownIffStored(hash: Hash, s: State, ref: Reference, a: Assignment)
    requires Represents(hash, s, ref) && Expressible(s, a) && NoCollision(hash, s, ValuesOf(s, a))
    ensures a in ref <==> HashOf(hash, ValuesOf(s, a)) in s.collection
  {
    ExpressibleRoundTrip(s, a);
    var h := HashOf(hash, ValuesOf(s, a));
    if h in s.collection {
      assert KeyOf(s, s.collection[h]) == a;
    }
    if a in ref {
      assert Stored(hash, s, a, ref[a]);
    }
  }

  function Put(hash: Hash, s: State, a: Assignment, e: Entry): State {
    var values := ValuesOf(s, a);
    s.(collection := s.collection[HashOf(hash, values) := GroupedCounterMetric(e.value, values, e.group)])
  }

  lemma PutKeepsOther(hash: Hash, s: State, ref: Reference, a: Assignment, e: Entry, b: Assignment)
    requires Represents(hash, s, ref) && Expressible(s, a) && NoCollision(hash, s, ValuesOf(s, a))
    requires b in ref && b != a
    ensures Expressible(Put(hash, s, a, e), b) && Stored(hash, Put(hash, s, a, e), b, ref[b])
  {
    OthersHashElsewhere(hash, s, ref, a, b);
    assert Stored(hash, s, b, ref[b]);
    assert ValuesOf(Put(hash, s, a, e), b) == ValuesOf(s, b);
  }

  lemma PutKeys(hash: Hash, s: State, ref: Reference, a: Assignment, e: Entry, g: u64)
    requires Represents(hash, s, ref) && Expressible(s, a)
    requires g in Put(hash, s, a, e).collection
    ensures
      var s1 := Put(hash, s, a, e);
      var m := s1.collection[g];
      && |m.labelValues| == |s1.labelNames| && g == HashOf(hash, m.labelValues)
      && KeyOf(s1, m) in ref[a := e]
  {
    var s1 := Put(hash, s, a, e);
    if g == HashOf(hash, ValuesOf(s, a)) {
      ExpressibleRoundTrip(s, a);
    } else {
      assert KeyOf(s, s.collection[g]) in ref;
    }
  }

  /** Storing one metric under its own hash sets one entry. */
  lemma PutRefines(hash: Hash, s: State, ref: Reference, a: Assignment, e: Entry)
    requires Represents(hash, s, ref) && Expressible(s, a) && NoCollision(hash, s, ValuesOf(s, a))
    ensures Represents(hash, Put(hash, s, a, e), ref[a := e])
  {
    var s1, ref1 := Put(hash, s, a, e), ref[a := e];
    forall g | g in s1.collection
      ensures |s1.collection[g].labelValues| == |s1.labelNames| && g == HashOf(hash, s1.collection[g].labelValues)
      ensures KeyOf(s1, s1.collection[g]) in ref1
    {
      PutKeys(hash, s, ref, a, e, g);
    }
    assert ValuesOf(s1, a) == ValuesOf(s, a);
    forall b | b in ref1
      ensures Expressible(s1, b) && Stored(hash, s1, b, ref1[b])
    {
      if b != a {
        PutKeepsOther(hash, s, ref, a, e, b);
      }
    }
  }

  lemma AddRefines(hash: Hash, s: State, ref: Reference, group: string, value: u64, labels: map<Bytes, Bytes>)
    requires Represents(hash, s, ref) && NoDuplicates(s.labelNames)
    requires NoCollision(hash, s, LabelValues(labels, s.labelNames))
    ensures Represents(hash, Added(hash, s, group, value, labels), RefAdd(ref, Restricted(labels, s.labelNames), group, value))
  {
    var a := Restricted(labels, s.labelNames);
    AddedAssignment(s, labels);
    KnownIffStored(hash, s, ref, a);
    assert a in ref ==> Stored(hash, s, a, ref[a]);
    PutRefines(hash, s, ref, a, RefAdd(ref, a, group, value)[a]);
  }

  /** Add is the map operation if and only if the hash does not collide with another stored entry. A collision
      leaves the new assignment without an entry of its own. */
  lemma AddRefinesIff(hash: Hash, s: State, ref: Reference, group: string, value: u64, labels: map<Bytes, Bytes>)
    requires Represents(hash, s, ref) && NoDuplicates(s.labelNames)
    ensures
      Represents(hash, Added(hash, s, group, value, labels), RefAdd(ref, Restricted(labels, s.labelNames), group, value))
      <==> NoCollision(hash, s, LabelValues(labels, s.labelNames))
  {
    if NoCollision(hash, s, LabelValues(labels, s.labelNames)) {
      AddRefines(hash, s, ref, group, value, labels);
    } else {
      AddedAssignment(s, labels);
      var a := Restricted(labels, s.labelNames);
      var s1, ref1 := Added(hash, s, group, value, labels), RefAdd(ref, a, group, value);
      assert !Stored(hash, s1, a, ref1[a]);
    }
  }

  function Expired(s: State, group: string): State {
    s.(collection := map h | h in s.collection && s.collection[h].group != group :: s.collection[h])
  }

  lemma ExpireRefines(hash: Hash, s: State, ref: Reference, group: string)
    requires Represents(hash, s, ref) && NoDuplicates(s.labelNames)
    ensures Represents(hash, Expired(s, group), RefExpire(ref, group))
  {
    var s1, ref1 := Expired(s, group), RefExpire(ref, group);
    forall a | a in ref1
      ensures Expressible(s1, a) && Stored(hash, s1, a, ref1[a])
    {
      assert ValuesOf(s1, a) == ValuesOf(s, a);
      assert Stored(hash, s, a, ref[a]);
    }
    forall h | h in s1.collection
      ensures KeyOf(s1, s1.collection[h]) in ref1
    {
      MetricIsEntry(hash, s, ref, h);
    }
  }

  /** Each stored metric is the entry of its assignment. */
  lemma MetricIsEntry(hash: Hash, s: State, ref: Reference, h: u64)
    requires Represents(hash, s, ref) && NoDuplicates(s.labelNames) && h in s.collection
    ensures
      var m := s.collection[h];
      KeyOf(s, m) in ref && ref[KeyOf(s, m)] == Entry(m.value, m.group) && ValuesOf(s, KeyOf(s, m)) == m.labelValues
  {
    var m := s.collection[h];
    var a := KeyOf(s, m);
    assert Stored(hash, s, a, ref[a]);
    AssignmentRoundTrip(s.labelNames, m.labelValues);
  }

  // ---------------------------------------------------------------------
  // UpdateLabels

  /** The labels that are not among the names yet, as often as they are given. */
  function NewLabels(labels: seq<Bytes>, labelNames: seq<Bytes>): seq<Bytes> {
    if labels == [] then []
    else
      var last := labels[|labels| - 1];
      NewLabels(labels[..|labels| - 1], labelNames) + (if last in labelNames then [] else [last])
  }

  function UpdatedNames(s: State, labels: seq<Bytes>): seq<Bytes> {
    Sort(s.labelNames + NewLabels(labels, s.labelNames))
  }

  /** A metric under the new names: old labels keep their values, new ones are empty. */
  function Extended(s: State, newNames: seq<Bytes>, m: GroupedCounterMetric): GroupedCounterMetric
    requires |m.labelValues| == |s.labelNames|
  {
    m.(labelValues := LabelValues(AssignmentOf(s.labelNames, m.labelValues), newNames))
  }

  /** What UpdateLabels may leave: each metric of the new collection is an old one, extended and stored under
      its new hash, and each old one's new hash is there. If two new hashes collide, the map iteration order
      decides which metric is kept. */
  ghost predicate Updated(hash: Hash, s: State, labels: seq<Bytes>, r: State)
    requires Keyed(hash, s)
  {
    && r.labelNames == UpdatedNames(s, labels)
    && if NewLabels(labels, s.labelNames) == [] then r.collection == s.collection else RekeyedExcept(hash, s, r, {})
  }

  /** Every old metric outside `todo` has its new hash in the new collection, which holds nothing but re-keyed
      metrics. */
  ghost predicate RekeyedExcept(hash: Hash, s: State, r: State, todo: set<u64>)
    requires Keyed(hash, s)
  {
    && (forall h {:trigger s.collection[h]} :: h in s.collection && h !in todo ==>
          NewHash(hash, s, r.labelNames, s.collection[h]) in r.collection)
    && (forall g {:trigger r.collection[g]} :: g in r.collection ==> exists h :: RekeyedFrom(hash, s, r, g, h))
  }

  function NewHash(hash: Hash, s: State, newNames: seq<Bytes>, m: GroupedCounterMetric): u64
    requires |m.labelValues| == |s.labelNames|
  {
    HashOf(hash, Extended(s, newNames, m).labelValues)
  }

  /** The new metric under `g` is the old one under `h`. */
  predicate RekeyedFrom(hash: Hash, s: State, r: State, g: u64, h: u64) {
    && g in r.collection && h in s.collection && |s.collection[h].labelValues| == |s.labelNames|
    && r.collection[g] == Extended(s, r.labelNames, s.collection[h])
    && g == NewHash(hash, s, r.labelNames, s.collection[h])
  }

  /** One round of the loop that rebuilds the collection. */
  lemma RekeyOne(hash: Hash, s: State, r: State, todo: set<u64>, h: u64)
    requires Keyed(hash, s) && RekeyedExcept(hash, s, r, todo) && h in s.collection
    ensures
      var e := Extended(s, r.labelNames, s.collection[h]);
      RekeyedExcept(hash, s, r.(collection := r.collection[HashOf(hash, e.labelValues) := e]), todo - {h})
  {
    var e := Extended(s, r.labelNames, s.collection[h]);
    var g := HashOf(hash, e.labelValues);
    var r' := r.(collection := r.collection[g := e]);
    assert RekeyedFrom(hash, s, r', g, h);
    forall g' | g' in r'.collection
      ensures exists h' :: RekeyedFrom(hash, s, r', g', h')
    {
      if g' != g {
        assert r.collection[g'] == r'.collection[g'];
        var h' :| RekeyedFrom(hash, s, r, g', h');
        assert RekeyedFrom(hash, s, r', g', h');
      }
    }
  }

  /** No two metrics get the same hash under the new names. */
  ghost predicate NoRehashCollision(hash: Hash, s: State, newNames: seq<Bytes>)
    requires Keyed(hash, s)
  {
    forall h, g :: h in s.collection && g in s.collection
      && NewHash(hash, s, newNames, s.collection[h]) == NewHash(hash, s, newNames, s.collection[g])
      ==> h == g
  }

  lemma {:induction false} NewLabelsElements(labels: seq<Bytes>, labelNames: seq<Bytes>)
    ensures forall n :: n in NewLabels(labels, labelNames) <==> n in labels && n !in labelNames
  {
    if labels != [] {
      var init, last := labels[..|labels| - 1], labels[|labels| - 1];
      NewLabelsElements(init, labelNames);
      assert labels == init + [last];
    }
  }

  lemma {:induction false} OncePerElement(xs: seq<Bytes>)
    ensures NoDuplicates(xs) <==> forall x :: multiset(xs)[x] <= 1
  {
    if xs != [] {
      var init, last := xs[..|xs| - 1], xs[|xs| - 1];
      OncePerElement(init);
      assert xs == init + [last];
      assert multiset(xs) == multiset(init) + multiset{last};
      assert multiset(xs)[last] == multiset(init)[last] + 1;
      if NoDuplicates(xs) {
        assert last !in init;
        assert NoDuplicates(init);
      }
      if forall x :: multiset(xs)[x] <= 1 {
        assert forall x :: multiset(init)[x] <= multiset(xs)[x];
        assert last !in multiset(init);
      }
    }
  }

  lemma PermutedElements(xs: seq<Bytes>, ys: seq<Bytes>)
    requires multiset(xs) == multiset(ys)
    ensures forall x :: x in xs <==> x in ys
    ensures NoDuplicates(xs) <==> NoDuplicates(ys)
  {
    OncePerElement(xs);
    OncePerElement(ys);
    forall x
      ensures x in xs <==> x in ys
    {
      assert x in multiset(xs) <==> x in multiset(ys);
    }
  }

  lemma DisjointDuplicates(xs: seq<Bytes>, ys: seq<Bytes>)
    requires NoDuplicates(xs) && forall y :: y in ys ==> y !in xs
    ensures NoDuplicates(xs + ys) <==> NoDuplicates(ys)
  {
    var all := xs + ys;
    if NoDuplicates(all) {
      forall i, j | 0 <= i < j < |ys|
        ensures ys[i] != ys[j]
      {
        assert ys[i] == all[|xs| + i] && ys[j] == all[|xs| + j];
      }
    }
    if NoDuplicates(ys) {
      forall i, j | 0 <= i < j < |all|
        ensures all[i] != all[j]
      {
        if j < |xs| {
          assert xs[i] != xs[j];
        } else if i < |xs| {
          assert ys[j - |xs|] in ys && xs[i] in xs;
        } else {
          assert ys[i - |xs|] != ys[j - |xs|];
        }
      }
    }
  }

  /** The new names are the old ones and the new labels, sorted. They are without duplicates if and only if no
      new label is given twice. */
  lemma UpdatedNamesAreSorted(s: State, labels: seq<Bytes>)
    requires NoDuplicates(s.labelNames)
    ensures forall n :: n in UpdatedNames(s, labels) <==> n in s.labelNames || n in labels
    ensures Sorted(UpdatedNames(s, labels))
    ensures NoDuplicates(UpdatedNames(s, labels)) <==> NoDuplicates(NewLabels(labels, s.labelNames))
    ensures NewLabels(labels, s.labelNames) == [] && Sorted(s.labelNames) ==> UpdatedNames(s, labels) == s.labelNames
  {
    var added := NewLabels(labels, s.labelNames);
    var all := s.labelNames + added;
    NewLabelsElements(labels, s.labelNames);
    SortSorts(all);
    PermutedElements(Sort(all), all);
    DisjointDuplicates(s.labelNames, added);
    if added == [] {
      assert all == s.labelNames;
    }
  }

  /** An extended metric stands for the same assignment. */
  lemma ExtendedKeepsKey(s: State, r: State, m: GroupedCounterMetric)
    requires |m.labelValues| == |s.labelNames| && forall n :: n in s.labelNames ==> n in r.labelNames
    ensures
      var e := Extended(s, r.labelNames, m);
      && Expressible(r, KeyOf(s, m))
      && e.labelValues == ValuesOf(r, KeyOf(s, m)) && |e.labelValues| == |r.labelNames|
      && KeyOf(r, e) == KeyOf(s, m)
  {
    ExpressibleRoundTrip(r, KeyOf(s, m));
  }

  lemma UpdateKeepsEntry(hash: Hash, s: State, ref: Reference, labels: seq<Bytes>, r: State, a: Assignment)
    requires Represents(hash, s, ref) && Updated(hash, s, labels, r) && NewLabels(labels, s.labelNames) != []
    requires NoRehashCollision(hash, s, r.labelNames)
    requires forall n :: n in s.labelNames ==> n in r.labelNames
    requires a in ref
    ensures Expressible(r, a) && Stored(hash, r, a, ref[a])
  {
    ExpressibleRoundTrip(s, a);
    var h := HashOf(hash, ValuesOf(s, a));
    assert Stored(hash, s, a, ref[a]);
    var m := s.collection[h];
    assert KeyOf(s, m) == a;
    ExtendedKeepsKey(s, r, m);
    var g := NewHash(hash, s, r.labelNames, m);
    assert g in r.collection;
    assert r.collection[g] == r.collection[g];
    var h' :| RekeyedFrom(hash, s, r, g, h');
    assert h' == h;
  }

  /** A metric of the new collection stands for an entry of the reference. */
  lemma RekeyedKeepsKey(hash: Hash, s: State, ref: Reference, r: State, g: u64, h: u64)
    requires Represents(hash, s, ref) && RekeyedFrom(hash, s, r, g, h)
    requires forall n :: n in s.labelNames ==> n in r.labelNames
    ensures
      var m := r.collection[g];
      |m.labelValues| == |r.labelNames| && g == HashOf(hash, m.labelValues) && KeyOf(r, m) in ref
  {
    ExtendedKeepsKey(s, r, s.collection[h]);
    assert KeyOf(s, s.collection[h]) in ref;
  }

  /** All metrics of the new collection stand for entries of the reference. */
  lemma RekeyedKeepsKeys(hash: Hash, s: State, ref: Reference, r: State)
    requires Represents(hash, s, ref) && RekeyedExcept(hash, s, r, {})
    requires forall n :: n in s.labelNames ==> n in r.labelNames
    ensures Keyed(hash, r)
    ensures forall g {:trigger KeyOf(r, r.collection[g])} :: g in r.collection ==> KeyOf(r, r.collection[g]) in ref
  {
    forall g | g in r.collection
      ensures |r.collection[g].labelValues| == |r.labelNames| && g == HashOf(hash, r.collection[g].labelValues)
      ensures KeyOf(r, r.collection[g]) in ref
    {
      assert r.collection[g] == r.collection[g];
      var h :| RekeyedFrom(hash, s, r, g, h);
      RekeyedKeepsKey(hash, s, ref, r, g, h);
    }
  }

  lemma UpdateRefines(hash: Hash, s: State, ref: Reference, labels: seq<Bytes>, r: State)
    requires Represents(hash, s, ref) && Updated(hash, s, labels, r) && NewLabels(labels, s.labelNames) != []
    requires NoRehashCollision(hash, s, r.labelNames)
    requires forall n :: n in s.labelNames ==> n in r.labelNames
    ensures Represents(hash, r, ref)
  {
    forall a | a in ref
      ensures Expressible(r, a) && Stored(hash, r, a, ref[a])
    {
      UpdateKeepsEntry(hash, s, ref, labels, r, a);
    }
    RekeyedKeepsKeys(hash, s, ref, r);
  }

  lemma RehashCollisionLosesEntry(hash: Hash, s: State, ref: Reference, labels: seq<Bytes>, r: State, h: u64, g: u64)
    requires Represents(hash, s, ref) && Updated(hash, s, labels, r)
    requires NoDuplicates(s.labelNames) && forall n :: n in s.labelNames ==> n in r.labelNames
    requires h in s.collection && g in s.collection && h != g
    requires NewHash(hash, s, r.labelNames, s.collection[h]) == NewHash(hash, s, r.labelNames, s.collection[g])
    ensures !Represents(hash, r, ref)
  {
    var m, m' := s.collection[h], s.collection[g];
    ExtendedKeepsKey(s, r, m);
    ExtendedKeepsKey(s, r, m');
    AssignmentRoundTrip(s.labelNames, m.labelValues);
    AssignmentRoundTrip(s.labelNames, m'.labelValues);
    var a, a' := KeyOf(s, m), KeyOf(s, m');
    assert a != a' && a in ref && a' in ref;
    ExpressibleRoundTrip(r, a);
    ExpressibleRoundTrip(r, a');
    assert !(Stored(hash, r, a, ref[a]) && Stored(hash, r, a', ref[a']));
  }

  /** Without collisions, sorting again does not change the hashes. */
  lemma SameNamesSameHash(hash: Hash, s: State, h: u64)
    requires Keyed(hash, s) && NoDuplicates(s.labelNames) && h in s.collection
    ensures NewHash(hash, s, s.labelNames, s.collection[h]) == h
  {
    AssignmentRoundTrip(s.labelNames, s.collection[h].labelValues);
  }

  lemma UpdateRefinesRekeyed(hash: Hash, s: State, ref: Reference, labels: seq<Bytes>, r: State)
    requires Represents(hash, s, ref) && NoDuplicates(s.labelNames)
    requires Updated(hash, s, labels, r) && NewLabels(labels, s.labelNames) != []
    requires forall n :: n in s.labelNames ==> n in r.labelNames
    ensures Represents(hash, r, ref) <==> NoRehashCollision(hash, s, r.labelNames)
  {
    if NoRehashCollision(hash, s, r.labelNames) {
      UpdateRefines(hash, s, ref, labels, r);
    } else {
      var h, g :| h in s.collection && g in s.collection && h != g
        && NewHash(hash, s, r.labelNames, s.collection[h]) == NewHash(hash, s, r.labelNames, s.collection[g]);
      RehashCollisionLosesEntry(hash, s, ref, labels, r, h, g);
    }
  }

  /** UpdateLabels changes no entry of the map, exactly when re-keying does not make two metrics collide; if there
      is no new label, the names have to be sorted (NamesMustBeSortedIff). */
  lemma UpdateRefinesIff(hash: Hash, s: State, ref: Reference, labels: seq<Bytes>, r: State)
    requires Represents(hash, s, ref) && NoDuplicates(s.labelNames) && Updated(hash, s, labels, r)
    requires NewLabels(labels, s.labelNames) == [] ==> Sorted(s.labelNames)
    ensures Represents(hash, r, ref) <==> NoRehashCollision(hash, s, r.labelNames)
  {
    UpdatedNamesAreSorted(s, labels);
    if NewLabels(labels, s.labelNames) == [] {
      forall h | h in s.collection
        ensures NewHash(hash, s, s.labelNames, s.collection[h]) == h
      {
        SameNamesSameHash(hash, s, h);
      }
    } else {
      UpdateRefinesRekeyed(hash, s, ref, labels, r);
    }
  }

  // ---------------------------------------------------------------------
  // Any sequence of operations

  datatype Operation =
    | AddValue(group: string, value: u64, labels: map<Bytes, Bytes>)
    | ExpireGroupMetrics(group: string)
    | UpdateLabels(newLabels: seq<Bytes>)

  ghost predicate Steps(hash: Hash, s: State, op: Operation, r: State)
    requires Keyed(hash, s)
  {
    match op
    case AddValue(group, value, labels) => r == Added(hash, s, group, value, labels)
    case ExpireGroupMetrics(group) => r == Expired(s, group)
    case UpdateLabels(labels) => Updated(hash, s, labels, r)
  }

  /** The operation meets no collision, and adds no label twice. */
  ghost predicate Clean(hash: Hash, s: State, op: Operation)
    requires Keyed(hash, s)
  {
    match op
    case AddValue(_, _, labels) => NoCollision(hash, s, LabelValues(labels, s.labelNames))
    case ExpireGroupMetrics(_) => true
    case UpdateLabels(labels) =>
      NoDuplicates(NewLabels(labels, s.labelNames)) && NoRehashCollision(hash, s, UpdatedNames(s, labels))
  }

  /** A reference map with the set of labels it distinguishes. */
  datatype RefState = RefState(labelNames: set<Bytes>, entries: Reference)

  /** The assignment that an Add is for. */
  function Target(r: RefState, op: Operation): Assignment
    requires op.AddValue?
  {
    map n | n in op.labels && n in r.labelNames && op.labels[n] != [] :: op.labels[n]
  }

  function RefStep(r: RefState, op: Operation): RefState {
    match op
    case AddValue(group, value, _) =>
      r.(entries := RefAdd(r.entries, Target(r, op), group, value))
    case ExpireGroupMetrics(group) => r.(entries := RefExpire(r.entries, group))
    case UpdateLabels(labels) => r.(labelNames := r.labelNames + set n | n in labels)
  }

  function RefRun(r: RefState, ops: seq<Operation>): RefState
    decreases |ops|
  {
    if ops == [] then r else RefRun(RefStep(r, ops[0]), ops[1..])
  }

  /** How much an operation adds for an assignment. */
  function AddedBy(r: RefState, op: Operation, a: Assignment): nat {
    if op.AddValue? && Target(r, op) == a then op.value else 0
  }

  function TotalAdded(r: RefState, ops: seq<Operation>, a: Assignment): nat
    decreases |ops|
  {
    if ops == [] then 0 else AddedBy(r, ops[0], a) + TotalAdded(RefStep(r, ops[0]), ops[1..], a)
  }

  /** An entry of the reference map is the sum of all that was added for its assignment, under the labels known at the
      time, modulo 2^64, and belongs to the group that was first, until this group expires. */
  lemma {:induction false} ValuesAddUp(r: RefState, ops: seq<Operation>, a: Assignment)
    requires a in r.entries && ExpireGroupMetrics(r.entries[a].group) !in ops
    ensures
      var end := RefRun(r, ops).entries;
      && a in end && end[a].group == r.entries[a].group
      && end[a].value == (r.entries[a].value + TotalAdded(r, ops, a)) % TWO_TO_THE_64
    decreases |ops|
  {
    if ops != [] {
      var r1, rest := RefStep(r, ops[0]), ops[1..];
      StepAdds(r, ops[0], a);
      assert ops[0] in ops && forall op :: op in rest ==> op in ops;
      ValuesAddUp(r1, rest, a);
      AddModulo(r.entries[a].value, AddedBy(r, ops[0], a), TotalAdded(r1, rest, a));
    }
  }

  lemma StepAdds(r: RefState, op: Operation, a: Assignment)
    requires a in r.entries && op != ExpireGroupMetrics(r.entries[a].group)
    ensures
      var end := RefStep(r, op).entries;
      a in end && end[a] == Entry((r.entries[a].value + AddedBy(r, op, a)) % TWO_TO_THE_64, r.entries[a].group)
  {
  }

  /** The first Add makes an entry with its own value and group. An expiry drops exactly the entries of its group, and
      nothing else ever drops or makes one. */
  lemma EntriesComeAndGo(r: RefState, op: Operation, a: Assignment)
    ensures
      a in RefStep(r, op).entries
      <==> || (a in r.entries && op != ExpireGroupMetrics(r.entries[a].group))
           || (op.AddValue? && a == Target(r, op))
    ensures op.AddValue? && a == Target(r, op) && a !in r.entries ==> RefStep(r, op).entries[a] == Entry(op.value, op.group)
  {
  }

  ghost predicate Refines(hash: Hash, s: State, r: RefState) {
    && SortedNames(s.labelNames) && NameSet(s.labelNames) == r.labelNames
    && Represents(hash, s, r.entries)
  }

  lemma StepRefines(hash: Hash, s: State, r: RefState, op: Operation, s': State)
    requires Refines(hash, s, r) && Steps(hash, s, op, s') && Clean(hash, s, op)
    ensures Refines(hash, s', RefStep(r, op))
  {
    match op
    case AddValue(group, value, labels) =>
      AddRefines(hash, s, r.entries, group, value, labels);
      assert Restricted(labels, s.labelNames) == Target(r, op);
    case ExpireGroupMetrics(group) => ExpireRefines(hash, s, r.entries, group);
    case UpdateLabels(labels) =>
      UpdatedNamesAreSorted(s, labels);
      UpdateRefinesIff(hash, s, r.entries, labels, s');
  }

  /** Any sequence of operations without collisions behaves as a map from label assignments, where a missing
      label and an empty value are the same. */
  lemma {:induction false} CollectorRefinesMap(hash: Hash, states: seq<State>, ops: seq<Operation>, r: RefState)
    requires |states| == |ops| + 1 && Refines(hash, states[0], r)
    requires forall i :: 0 <= i < |ops| ==>
               Keyed(hash, states[i]) && Steps(hash, states[i], ops[i], states[i + 1]) && Clean(hash, states[i], ops[i])
    ensures Refines(hash, states[|ops|], RefRun(r, ops))
    decreases |ops|
  {
    if ops != [] {
      StepRefines(hash, states[0], r, ops[0], states[1]);
      CollectorRefinesMap(hash, states[1..], ops[1..], RefStep(r, ops[0]));
    }
  }

  // ---------------------------------------------------------------------
  // Runs of a new collector, judged by their inputs

  /** The label names after the first `i` operations. */
  function NamesAt(names: seq<Bytes>, ops: seq<Operation>, i: nat): seq<Bytes>
    requires i <= |ops|
  {
    if i == 0 then names
    else
      var before := NamesAt(names, ops, i - 1);
      if ops[i - 1].UpdateLabels? then Sort(before + NewLabels(ops[i - 1].newLabels, before)) else before
  }

  /** The reference map after the first `i` operations. */
  function RefAt(names: seq<Bytes>, ops: seq<Operation>, i: nat): RefState
    requires i <= |ops|
  {
    RefRun(RefState(NameSet(names), map[]), ops[..i])
  }

  lemma {:induction false} RefRunSnoc(r: RefState, ops: seq<Operation>, op: Operation)
    ensures RefRun(r, ops + [op]) == RefStep(RefRun(r, ops), op)
    decreases |ops|
  {
    if ops == [] {
      assert [op][1..] == [];
      assert RefRun(RefStep(r, op), []) == RefStep(r, op);
    } else {
      assert (ops + [op])[1..] == ops[1..] + [op];
      RefRunSnoc(RefStep(r, ops[0]), ops[1..], op);
    }
  }

  lemma RefAtNext(names: seq<Bytes>, ops: seq<Operation>, i: nat)
    requires i < |ops|
    ensures RefAt(names, ops, i + 1) == RefStep(RefAt(names, ops, i), ops[i])
  {
    assert ops[..i + 1] == ops[..i] + [ops[i]];
    RefRunSnoc(RefState(NameSet(names), map[]), ops[..i], ops[i]);
  }

  /** The values under which an assignment is stored after `i` operations. */
  function ValuesAt(names: seq<Bytes>, ops: seq<Operation>, i: nat, a: Assignment): seq<Bytes>
    requires i <= |ops|
  {
    LabelValues(a, NamesAt(names, ops, i))
  }

  /** At no time two assignments of the reference map share a hash. */
  ghost predicate HashesDistinct(hash: Hash, names: seq<Bytes>, ops: seq<Operation>) {
    forall i: nat, a, b {:trigger ValuesAt(names, ops, i, a), ValuesAt(names, ops, i, b)} ::
      i <= |ops| && a in RefAt(names, ops, i).entries && b in RefAt(names, ops, i).entries
      && HashOf(hash, ValuesAt(names, ops, i, a)) == HashOf(hash, ValuesAt(names, ops, i, b))
      ==> a == b
  }

  /** No new label is given twice in one UpdateLabels. */
  ghost predicate NewLabelsOnce(names: seq<Bytes>, ops: seq<Operation>) {
    forall i :: 0 <= i < |ops| && ops[i].UpdateLabels? ==> NoDuplicates(NewLabels(ops[i].newLabels, NamesAt(names, ops, i)))
  }

  /** The state after `i` operations is as it should be. */
  ghost predicate RefinesAt(hash: Hash, s: State, names: seq<Bytes>, ops: seq<Operation>, i: nat)
    requires i <= |ops|
  {
    s.labelNames == NamesAt(names, ops, i) && Refines(hash, s, RefAt(names, ops, i))
  }

  lemma AddIsClean(hash: Hash, s: State, names: seq<Bytes>, ops: seq<Operation>, i: nat)
    requires HashesDistinct(hash, names, ops)
    requires i < |ops| && ops[i].AddValue? && RefinesAt(hash, s, names, ops, i)
    ensures Clean(hash, s, ops[i])
  {
    var labels := ops[i].labels;
    var values, a := LabelValues(labels, s.labelNames), Restricted(labels, s.labelNames);
    AddedAssignment(s, labels);
    RefAtNext(names, ops, i);
    assert a == Target(RefAt(names, ops, i), ops[i]);
    var h := HashOf(hash, values);
    if h in s.collection {
      MetricIsEntry(hash, s, RefAt(names, ops, i).entries, h);
      var b := KeyOf(s, s.collection[h]);
      assert ValuesAt(names, ops, i + 1, a) == values;
      assert ValuesAt(names, ops, i + 1, b) == s.collection[h].labelValues;
      assert a == b;
    }
  }

  /** The assignment of a stored metric is in the reference map after an UpdateLabels too. */
  lemma RekeyedAssignment(hash: Hash, s: State, names: seq<Bytes>, ops: seq<Operation>, i: nat, h: u64)
    requires i < |ops| && ops[i].UpdateLabels? && RefinesAt(hash, s, names, ops, i) && h in s.collection
    ensures
      var a := KeyOf(s, s.collection[h]);
      && a in RefAt(names, ops, i + 1).entries && ValuesOf(s, a) == s.collection[h].labelValues
      && ValuesAt(names, ops, i + 1, a) == LabelValues(a, UpdatedNames(s, ops[i].newLabels))
  {
    RefAtNext(names, ops, i);
    MetricIsEntry(hash, s, RefAt(names, ops, i).entries, h);
  }

  lemma RehashIsClean(hash: Hash, s: State, names: seq<Bytes>, ops: seq<Operation>, i: nat, h: u64, g: u64)
    requires HashesDistinct(hash, names, ops)
    requires i < |ops| && ops[i].UpdateLabels? && RefinesAt(hash, s, names, ops, i)
    requires h in s.collection && g in s.collection
    requires
      var newNames := UpdatedNames(s, ops[i].newLabels);
      NewHash(hash, s, newNames, s.collection[h]) == NewHash(hash, s, newNames, s.collection[g])
    ensures h == g
  {
    RekeyedAssignment(hash, s, names, ops, i, h);
    RekeyedAssignment(hash, s, names, ops, i, g);
    var a, b := KeyOf(s, s.collection[h]), KeyOf(s, s.collection[g]);
    assert HashOf(hash, ValuesAt(names, ops, i + 1, a)) == HashOf(hash, ValuesAt(names, ops, i + 1, b));
    assert a == b;
  }

  /** With distinct hashes no step of a run meets a collision. */
  lemma StepIsClean(hash: Hash, s: State, names: seq<Bytes>, ops: seq<Operation>, i: nat)
    requires NewLabelsOnce(names, ops) && HashesDistinct(hash, names, ops)
    requires i < |ops| && RefinesAt(hash, s, names, ops, i)
    ensures Clean(hash, s, ops[i])
  {
    match ops[i]
    case AddValue(_, _, _) => AddIsClean(hash, s, names, ops, i);
    case ExpireGroupMetrics(_) =>
    case UpdateLabels(labels) =>
      forall h, g | h in s.collection && g in s.collection
        && NewHash(hash, s, UpdatedNames(s, labels), s.collection[h]) == NewHash(hash, s, UpdatedNames(s, labels), s.collection[g])
        ensures h == g
      {
        RehashIsClean(hash, s, names, ops, i, h, g);
      }
  }

  /** The states of a run of a new collector. */
  ghost predicate IsRun(hash: Hash, states: seq<State>, names: seq<Bytes>, ops: seq<Operation>) {
    && |states| == |ops| + 1 && states[0] == State(names, map[])
    && forall i :: 0 <= i < |ops| && Keyed(hash, states[i]) ==> Steps(hash, states[i], ops[i], states[i + 1])
  }

  lemma {:induction false} DistinctHashesRefine(hash: Hash, states: seq<State>, names: seq<Bytes>, ops: seq<Operation>, i: nat)
    requires IsRun(hash, states, names, ops) && SortedNames(names) && i <= |ops|
    requires NewLabelsOnce(names, ops) && HashesDistinct(hash, names, ops)
    ensures RefinesAt(hash, states[i], names, ops, i)
  {
    if i > 0 {
      DistinctHashesRefine(hash, states, names, ops, i - 1);
      StepIsClean(hash, states[i - 1], names, ops, i - 1);
      StepRefines(hash, states[i - 1], RefAt(names, ops, i - 1), ops[i - 1], states[i]);
      RefAtNext(names, ops, i - 1);
    }
  }

  /** All states of the run stand for the reference map of their time. */
  ghost predicate RunRefines(hash: Hash, states: seq<State>, names: seq<Bytes>, ops: seq<Operation>)
    requires |states| == |ops| + 1
  {
    forall i: nat :: i <= |ops| ==> Refines(hash, states[i], RefAt(names, ops, i))
  }

  lemma {:induction false} NamesOfRun(hash: Hash, states: seq<State>, names: seq<Bytes>, ops: seq<Operation>, i: nat)
    requires IsRun(hash, states, names, ops) && RunRefines(hash, states, names, ops) && i <= |ops|
    ensures states[i].labelNames == NamesAt(names, ops, i)
  {
    if i > 0 {
      NamesOfRun(hash, states, names, ops, i - 1);
      var s, op := states[i - 1], ops[i - 1];
      assert Refines(hash, s, RefAt(names, ops, i - 1));
      assert Steps(hash, s, op, states[i]);
    }
  }

  lemma RefiningRunIsDistinct(hash: Hash, states: seq<State>, names: seq<Bytes>, ops: seq<Operation>, i: nat, a: Assignment, b: Assignment)
    requires IsRun(hash, states, names, ops) && RunRefines(hash, states, names, ops) && i <= |ops|
    requires a in RefAt(names, ops, i).entries && b in RefAt(names, ops, i).entries
    requires HashOf(hash, ValuesAt(names, ops, i, a)) == HashOf(hash, ValuesAt(names, ops, i, b))
    ensures a == b
  {
    NamesOfRun(hash, states, names, ops, i);
    var s, ref := states[i], RefAt(names, ops, i).entries;
    assert Represents(hash, s, ref);
    assert Stored(hash, s, a, ref[a]) && Stored(hash, s, b, ref[b]);
    ExpressibleRoundTrip(s, a);
    ExpressibleRoundTrip(s, b);
  }

  lemma RefiningRunAddsOnce(hash: Hash, states: seq<State>, names: seq<Bytes>, ops: seq<Operation>, i: nat)
    requires IsRun(hash, states, names, ops) && RunRefines(hash, states, names, ops)
    requires i < |ops| && ops[i].UpdateLabels?
    ensures NoDuplicates(NewLabels(ops[i].newLabels, NamesAt(names, ops, i)))
  {
    NamesOfRun(hash, states, names, ops, i);
    assert Refines(hash, states[i], RefAt(names, ops, i)) && Refines(hash, states[i + 1], RefAt(names, ops, i + 1));
    assert Steps(hash, states[i], ops[i], states[i + 1]);
    UpdatedNamesAreSorted(states[i], ops[i].newLabels);
  }

  /** A run of a new collector with sorted names behaves as a map from label assignments all the time, if and only
      if no new label is given twice in one UpdateLabels and at no time two assignments of that map share a hash. */
  lemma RunRefinesIff(hash: Hash, states: seq<State>, names: seq<Bytes>, ops: seq<Operation>)
    requires IsRun(hash, states, names, ops) && SortedNames(names)
    ensures RunRefines(hash, states, names, ops) <==> NewLabelsOnce(names, ops) && HashesDistinct(hash, names, ops)
  {
    if RunRefines(hash, states, names, ops) {
      forall i: nat, a, b | i <= |ops| && a in RefAt(names, ops, i).entries && b in RefAt(names, ops, i).entries
        && HashOf(hash, ValuesAt(names, ops, i, a)) == HashOf(hash, ValuesAt(names, ops, i, b))
        ensures a == b
      {
        RefiningRunIsDistinct(hash, states, names, ops, i, a, b);
      }
      forall i | 0 <= i < |ops| && ops[i].UpdateLabels?
        ensures NoDuplicates(NewLabels(ops[i].newLabels, NamesAt(names, ops, i)))
      {
        RefiningRunAddsOnce(hash, states, names, ops, i);
      }
    }
    if NewLabelsOnce(names, ops) && HashesDistinct(hash, names, ops) {
      forall i: nat | i <= |ops|
        ensures Refines(hash, states[i], RefAt(names, ops, i))
      {
        DistinctHashesRefine(hash, states, names, ops, i);
      }
    }
  }

  // ---------------------------------------------------------------------
  // Hashes that separate byte strings

  predicate IsAdd(ops: seq<Operation>, j: nat) {
    j < |ops| && ops[j].AddValue?
  }

  /** No added label value contains byte 255. */
  ghost predicate NoSeparatorAdded(ops: seq<Operation>) {
    forall j: nat, n :: IsAdd(ops, j) && n in ops[j].labels ==> LABELS_SEPARATOR !in ops[j].labels[n]
  }

  /** No two different byte strings that are in the collection at one time have the same hash. */
  ghost predicate HashSeparates(hash: Hash, names: seq<Bytes>, ops: seq<Operation>) {
    forall i: nat, a, b {:trigger ValuesAt(names, ops, i, a), ValuesAt(names, ops, i, b)} ::
      i <= |ops| && a in RefAt(names, ops, i).entries && b in RefAt(names, ops, i).entries
      && HashOf(hash, ValuesAt(names, ops, i, a)) == HashOf(hash, ValuesAt(names, ops, i, b))
      ==> Encoded(ValuesAt(names, ops, i, a)) == Encoded(ValuesAt(names, ops, i, b))
  }

  predicate PlainOver(labelNames: set<Bytes>, a: Assignment) {
    IsAssignment(a) && forall n :: n in a ==> n in labelNames && LABELS_SEPARATOR !in a[n]
  }

  ghost predicate Plain(r: RefState) {
    forall a :: a in r.entries ==> PlainOver(r.labelNames, a)
  }

  lemma StepKeepsPlain(r: RefState, op: Operation)
    requires Plain(r)
    requires op.AddValue? ==> forall n :: n in op.labels ==> LABELS_SEPARATOR !in op.labels[n]
    ensures Plain(RefStep(r, op))
  {
    var r' := RefStep(r, op);
    forall a | a in r'.entries
      ensures PlainOver(r'.labelNames, a)
    {
      assert a in r.entries ==> PlainOver(r.labelNames, a);
    }
  }

  lemma NamesNext(names: seq<Bytes>, ops: seq<Operation>, i: nat)
    requires i < |ops| && RefAt(names, ops, i).labelNames == NameSet(NamesAt(names, ops, i))
    ensures RefAt(names, ops, i + 1).labelNames == NameSet(NamesAt(names, ops, i + 1))
  {
    RefAtNext(names, ops, i);
    var before, op := NamesAt(names, ops, i), ops[i];
    if op.UpdateLabels? {
      var all := before + NewLabels(op.newLabels, before);
      NewLabelsElements(op.newLabels, before);
      SortSorts(all);
      PermutedElements(Sort(all), all);
    }
  }

  lemma {:induction false} EntriesArePlain(names: seq<Bytes>, ops: seq<Operation>, i: nat)
    requires NoSeparatorAdded(ops) && i <= |ops|
    ensures RefAt(names, ops, i).labelNames == NameSet(NamesAt(names, ops, i))
    ensures Plain(RefAt(names, ops, i))
  {
    if i > 0 {
      EntriesArePlain(names, ops, i - 1);
      NamesNext(names, ops, i - 1);
      RefAtNext(names, ops, i - 1);
      assert ops[i - 1].AddValue? ==> IsAdd(ops, i - 1);
      StepKeepsPlain(RefAt(names, ops, i - 1), ops[i - 1]);
    }
  }

  lemma PlainValues(names: seq<Bytes>, a: Assignment)
    requires PlainOver(NameSet(names), a)
    ensures NoSeparator(LabelValues(a, names)) && AssignmentOf(names, LabelValues(a, names)) == a
  {
    ValuesRoundTrip(a, names);
    assert Restricted(a, names) == a;
    var values := LabelValues(a, names);
    forall v | v in values
      ensures LABELS_SEPARATOR !in v
    {
      var x :| 0 <= x < |values| && values[x] == v;
      assert v == [] || (names[x] in a && v == a[names[x]]);
    }
  }

  /** Without byte 255 in label values it is enough, and necessary, that the hash separates the byte strings. */
  lemma RunRefinesIffSeparated(hash: Hash, states: seq<State>, names: seq<Bytes>, ops: seq<Operation>)
    requires IsRun(hash, states, names, ops) && SortedNames(names) && NoSeparatorAdded(ops)
    ensures RunRefines(hash, states, names, ops) <==> NewLabelsOnce(names, ops) && HashSeparates(hash, names, ops)
  {
    RunRefinesIff(hash, states, names, ops);
    if HashSeparates(hash, names, ops) {
      forall i: nat, a, b | i <= |ops| && a in RefAt(names, ops, i).entries && b in RefAt(names, ops, i).entries
        && HashOf(hash, ValuesAt(names, ops, i, a)) == HashOf(hash, ValuesAt(names, ops, i, b))
        ensures a == b
      {
        EntriesArePlain(names, ops, i);
        assert PlainOver(RefAt(names, ops, i).labelNames, a) && PlainOver(RefAt(names, ops, i).labelNames, b);
        PlainValues(NamesAt(names, ops, i), a);
        PlainValues(NamesAt(names, ops, i), b);
        EncodingIsInjective(ValuesAt(names, ops, i, a), ValuesAt(names, ops, i, b));
      }
      assert HashesDistinct(hash, names, ops);
    }
  }

  // ---------------------------------------------------------------------
  // Names that are not sorted

  lemma SortedIfUnchanged(names: seq<Bytes>)
    ensures Sorted(names) <==> Sort(names) == names
  {
    SortSorts(names);
  }

  /** A value for one name only. */
  function SingleValue(names: seq<Bytes>, p: nat): (values: seq<Bytes>)
    requires p < |names|
    ensures |values| == |names|
  {
    seq(|names|, i requires 0 <= i < |names| => if i == p then [1] else [])
  }

  function SingleMetric(hash: Hash, names: seq<Bytes>, p: nat): State
    requires p < |names|
  {
    var values := SingleValue(names, p);
    State(names, map[HashOf(hash, values) := GroupedCounterMetric(0, values, "")])
  }

  lemma SingleIsRepresented(hash: Hash, names: seq<Bytes>, p: nat)
    requires NoDuplicates(names) && p < |names|
    ensures Represents(hash, SingleMetric(hash, names, p), map[map[names[p] := [1]] := Entry(0, "")])
  {
    var s := SingleMetric(hash, names, p);
    var a: Assignment := map[names[p] := [1]];
    assert LabelValues(a, names) == SingleValue(names, p);
    ExpressibleRoundTrip(s, a);
    assert Stored(hash, s, a, Entry(0, ""));
  }

  /** Under other names in this place it is not the same entry. */
  lemma MovedIsNotRepresented(hash: Hash, names: seq<Bytes>, names': seq<Bytes>, p: nat)
    requires NoDuplicates(names') && p < |names| == |names'| && names'[p] != names[p]
    ensures !Represents(hash, State(names', SingleMetric(hash, names, p).collection), map[map[names[p] := [1]] := Entry(0, "")])
  {
    var values := SingleValue(names, p);
    var r := State(names', SingleMetric(hash, names, p).collection);
    var h := HashOf(hash, values);
    AssignmentAt(names', values, p);
    assert r.collection[h].labelValues == values;
    assert names'[p] in KeyOf(r, r.collection[h]);
    assert KeyOf(r, r.collection[h]) != map[names[p] := [1]];
  }

  lemma SortingMovesValue(hash: Hash, names: seq<Bytes>, labels: seq<Bytes>, p: nat)
    requires NoDuplicates(names) && p < |names| == |Sort(names)| && Sort(names)[p] != names[p]
    requires NewLabels(labels, names) == []
    ensures
      var s, ref := SingleMetric(hash, names, p), map[map[names[p] := [1]] := Entry(0, "")];
      && Represents(hash, s, ref)
      && Updated(hash, s, labels, State(Sort(names), s.collection))
      && !Represents(hash, State(Sort(names), s.collection), ref)
  {
    SingleIsRepresented(hash, names, p);
    SortSorts(names);
    PermutedElements(Sort(names), names);
    MovedIsNotRepresented(hash, names, Sort(names), p);
    assert names + [] == names;
  }

  /** UpdateLabels sorts the names even if there is no new label, and leaves the values. It keeps all entries of
      every collection under these names, if and only if the names are sorted. */
  lemma NamesMustBeSortedIff(hash: Hash, names: seq<Bytes>, labels: seq<Bytes>)
    requires NoDuplicates(names) && NewLabels(labels, names) == []
    ensures
      (forall s: State, r: State, ref: Reference | s.labelNames == names && Represents(hash, s, ref) && Updated(hash, s, labels, r) ::
         Represents(hash, r, ref))
      <==> Sorted(names)
  {
    SortedIfUnchanged(names);
    assert names + [] == names;
    if !Sorted(names) {
      SortKeepsLength(names);
      var p :| 0 <= p < |names| && Sort(names)[p] != names[p];
      SortingMovesValue(hash, names, labels, p);
    }
  }

  // ---------------------------------------------------------------------
  // The collector itself

  /** The position of a name; of two the later one. */
  predicate IsLastIndex(labelNames: seq<Bytes>, n: Bytes, idx: nat) {
    idx < |labelNames| && labelNames[idx] == n && forall j :: idx < j < |labelNames| ==> labelNames[j] != n
  }

  class ConstCounterCollector {
    const hash: Hash
    var labelNames: seq<Bytes>
    var collection: Collection

    constructor (hash: Hash, labelNames: seq<Bytes>)
      ensures this.hash == hash && Fields() == State(labelNames, map[])
    {
      this.hash, this.labelNames, collection := hash, labelNames, map[];
    }

    ghost function Fields(): State
      reads this
    {
      State(labelNames, collection)
    }

    method Add(group: string, value: u64, labels: map<Bytes, Bytes>)
      modifies this
      ensures Fields() == Added(hash, old(Fields()), group, value, labels)
    {
      var labelValues := LabelValues(labels, labelNames);
      var labelsHash := HashOf(hash, labelValues);
      var storedMetric;
      if labelsHash !in collection {
        storedMetric := GroupedCounterMetric(value, labelValues, group);
      } else {
        storedMetric := collection[labelsHash].(value := AddU64(collection[labelsHash].value, value));
      }
      collection := collection[labelsHash := storedMetric];
    }

    method ExpireGroupMetrics(group: string)
      modifies this
      ensures Fields() == Expired(old(Fields()), group)
    {
      var todo := collection.Keys;
      ghost var start := collection;
      while todo != {}
        invariant labelNames == old(labelNames) && todo <= start.Keys
        invariant collection == map h | h in start && (h in todo || start[h].group != group) :: start[h]
        decreases |todo|
      {
        var h :| h in todo;
        if collection[h].group == group {
          collection := collection - {h};
        }
        todo := todo - {h};
      }
    }

    /** The position of each old name; a later one wins. */
    method IndexNames() returns (previousLabelsMap: map<Bytes, nat>)
      ensures forall n :: n in previousLabelsMap <==> n in labelNames
      ensures forall n :: n in previousLabelsMap ==> IsLastIndex(labelNames, n, previousLabelsMap[n])
    {
      previousLabelsMap := map[];
      for idx := 0 to |labelNames|
        invariant forall n :: n in previousLabelsMap <==> n in labelNames[..idx]
        invariant forall n :: n in previousLabelsMap ==> IsLastIndex(labelNames[..idx], n, previousLabelsMap[n])
      {
        previousLabelsMap := previousLabelsMap[labelNames[idx] := idx];
      }
    }

    /** The values of one metric under the new names. */
    method ExtendValues(previous: seq<Bytes>, previousLabelsMap: map<Bytes, nat>, newNames: seq<Bytes>, metric: GroupedCounterMetric)
      returns (newLabelsValues: seq<Bytes>)
      requires |metric.labelValues| == |previous|
      requires forall n :: n in previousLabelsMap <==> n in previous
      requires forall n :: n in previousLabelsMap ==> IsLastIndex(previous, n, previousLabelsMap[n])
      ensures newLabelsValues == LabelValues(AssignmentOf(previous, metric.labelValues), newNames)
    {
      newLabelsValues := [];
      ghost var all := LabelValues(AssignmentOf(previous, metric.labelValues), newNames);
      for i := 0 to |newNames|
        invariant newLabelsValues == all[..i]
      {
        var value := [];
        if newNames[i] in previousLabelsMap {
          var idx := previousLabelsMap[newNames[i]];
          AssignmentAt(previous, metric.labelValues, idx);
          value := metric.labelValues[idx];
        }
        assert value == all[i];
        newLabelsValues := newLabelsValues + [value];
      }
    }

    /** The collection under new names that are more than the previous ones. */
    method Rekey(previous: seq<Bytes>, previousLabelsMap: map<Bytes, nat>)
      requires Keyed(hash, State(previous, collection)) && |labelNames| != |previous|
      requires forall n :: n in previousLabelsMap <==> n in previous
      requires forall n :: n in previousLabelsMap ==> IsLastIndex(previous, n, previousLabelsMap[n])
      modifies this`collection
      ensures RekeyedExcept(hash, State(previous, old(collection)), Fields(), {})
    {
      ghost var s := State(previous, collection);
      var newCollection: Collection := map[];
      var todo := collection.Keys;
      while todo != {}
        invariant collection == s.collection && todo <= s.collection.Keys
        invariant RekeyedExcept(hash, s, State(labelNames, newCollection), todo)
        decreases |todo|
      {
        var h :| h in todo;
        var metric := collection[h];
        if |metric.labelValues| != |labelNames| {
          var newLabelsValues := ExtendValues(previous, previousLabelsMap, labelNames, metric);
          var newLabelsHash := HashOf(hash, newLabelsValues);
          RekeyOne(hash, s, State(labelNames, newCollection), todo, h);
          newCollection := newCollection[newLabelsHash := GroupedCounterMetric(metric.value, newLabelsValues, metric.group)];
        } else {
          assert false; // the branch that keeps a metric cannot be reached: all have the previous length
        }
        todo := todo - {h};
      }
      collection := newCollection;
    }

    method UpdateLabels(labels: seq<Bytes>)
      requires Keyed(hash, Fields())
      modifies this
      ensures Updated(hash, old(Fields()), labels, Fields())
    {
      ghost var s := Fields();
      var mustUpdate := false;
      var previousLabelsMap := IndexNames();
      var previousLabelSet := labelNames;
      for i := 0 to |labels|
        invariant collection == s.collection
        invariant labelNames == s.labelNames + NewLabels(labels[..i], s.labelNames)
        invariant mustUpdate <==> NewLabels(labels[..i], s.labelNames) != []
      {
        assert labels[..i + 1][..i] == labels[..i];
        if labels[i] !in previousLabelsMap {
          mustUpdate := true;
          labelNames := labelNames + [labels[i]];
        }
      }
      assert labels[..|labels|] == labels;
      ghost var all := labelNames;
      labelNames := Sort(labelNames);
      if mustUpdate {
        SortKeepsLength(all);
        Rekey(previousLabelSet, previousLabelsMap);
      }
    }
  }
}
