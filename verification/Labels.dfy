/** Label names and values as byte strings: pkg/utils/labels/labels.go and the sorting and hashing that
    pkg/metric/collector.go builds on them. */
module Labels {
  import opened Common

  // ---------------------------------------------------------------------
  // sort.Strings

  /** Go's `<=` on strings: byte-wise lexicographic. */
  predicate LessEq(a: Bytes, b: Bytes) {
    a == [] || (b != [] && (a[0] < b[0] || (a[0] == b[0] && LessEq(a[1..], b[1..]))))
  }

  lemma {:induction false} LessEqIsTotal(a: Bytes, b: Bytes)
    ensures LessEq(a, b) || LessEq(b, a)
    ensures LessEq(a, b) && LessEq(b, a) ==> a == b
  {
    if a != [] && b != [] && a[0] == b[0] {
      LessEqIsTotal(a[1..], b[1..]);
      assert a == [a[0]] + a[1..] && b == [b[0]] + b[1..];
    }
  }

  lemma {:induction false} LessEqIsTransitive(a: Bytes, b: Bytes, c: Bytes)
    requires LessEq(a, b) && LessEq(b, c)
    ensures LessEq(a, c)
  {
    if a != [] && b != [] && c != [] && a[0] == b[0] == c[0] {
      LessEqIsTransitive(a[1..], b[1..], c[1..]);
    }
  }

  predicate Sorted(xs: seq<Bytes>) {
    forall i, j :: 0 <= i < j < |xs| ==> LessEq(xs[i], xs[j])
  }

  function Insert(x: Bytes, xs: seq<Bytes>): seq<Bytes> {
    if xs == [] then [x]
    else if LessEq(x, xs[0]) then [x] + xs
    else [xs[0]] + Insert(x, xs[1..])
  }

  function Sort(xs: seq<Bytes>): seq<Bytes> {
    if xs == [] then [] else Insert(xs[0], Sort(xs[1..]))
  }

  lemma {:induction false} InsertKeeps(x: Bytes, xs: seq<Bytes>)
    ensures multiset(Insert(x, xs)) == multiset{x} + multiset(xs)
    ensures Sorted(xs) ==> Sorted(Insert(x, xs))
  {
    if xs != [] {
      assert xs == [xs[0]] + xs[1..];
      if LessEq(x, xs[0]) {
        if Sorted(xs) {
          forall j | 0 <= j < |xs|
            ensures LessEq(x, xs[j])
          {
            if j > 0 {
              LessEqIsTransitive(x, xs[0], xs[j]);
            }
          }
        }
      } else {
        var rest := Insert(x, xs[1..]);
        InsertKeeps(x, xs[1..]);
        LessEqIsTotal(x, xs[0]);
        if Sorted(xs) {
          assert Sorted(xs[1..]);
          forall j | 0 <= j < |rest|
            ensures LessEq(xs[0], rest[j])
          {
            assert rest[j] in multiset(rest);
            assert rest[j] == x || rest[j] in xs[1..];
          }
        }
      }
    }
  }

  /** sort.Strings gives a sorted permutation, and leaves a sorted list alone. */
  lemma {:induction false} SortSorts(xs: seq<Bytes>)
    ensures Sorted(Sort(xs)) && multiset(Sort(xs)) == multiset(xs)
    ensures Sorted(xs) ==> Sort(xs) == xs
  {
    if xs != [] {
      SortSorts(xs[1..]);
      InsertKeeps(xs[0], Sort(xs[1..]));
      assert xs == [xs[0]] + xs[1..];
      if Sorted(xs) {
        assert Sorted(xs[1..]);
        assert |xs| > 1 ==> LessEq(xs[0], xs[1..][0]);
      }
    }
  }

  lemma SortKeepsLength(xs: seq<Bytes>)
    ensures |Sort(xs)| == |xs|
  {
    SortSorts(xs);
    assert |Sort(xs)| == |multiset(Sort(xs))| == |multiset(xs)| == |xs|;
  }

  // ---------------------------------------------------------------------
  // Label values

  /** The values in the order of the names; a missing label has the empty value. */
  function LabelValues(labels: map<Bytes, Bytes>, labelNames: seq<Bytes>): (r: seq<Bytes>)
    ensures |r| == |labelNames|
  {
    seq(|labelNames|, i requires 0 <= i < |labelNames| =>
        if labelNames[i] in labels then labels[labelNames[i]] else [])
  }

  /** An assignment of values to labels, where a missing label and an empty value are the same. */
  predicate IsAssignment(a: map<Bytes, Bytes>) {
    forall n :: n in a ==> a[n] != []
  }

  /** The assignment that a list of values stands for; of a name that is there twice the last value counts. */
  function AssignmentOf(labelNames: seq<Bytes>, values: seq<Bytes>): (a: map<Bytes, Bytes>)
    requires |values| == |labelNames|
    ensures IsAssignment(a) && forall n :: n in a ==> n in labelNames
  {
    if labelNames == [] then map[]
    else
      var n := |labelNames| - 1;
      var init := AssignmentOf(labelNames[..n], values[..n]);
      if values[n] == [] then init - {labelNames[n]} else init[labelNames[n] := values[n]]
  }

  lemma {:induction false} AssignmentAt(labelNames: seq<Bytes>, values: seq<Bytes>, i: nat)
    requires |values| == |labelNames| && i < |values| && forall j :: i < j < |values| ==> labelNames[j] != labelNames[i]
    ensures
      var a := AssignmentOf(labelNames, values);
      if values[i] == [] then labelNames[i] !in a else labelNames[i] in a && a[labelNames[i]] == values[i]
  {
    var n := |labelNames| - 1;
    if i < n {
      AssignmentAt(labelNames[..n], values[..n], i);
    }
  }

  /** Lists of values for given names and assignments to these names are the same thing. */
  lemma AssignmentRoundTrip(labelNames: seq<Bytes>, values: seq<Bytes>)
    requires |values| == |labelNames| && NoDuplicates(labelNames)
    ensures LabelValues(AssignmentOf(labelNames, values), labelNames) == values
  {
    forall i | 0 <= i < |values|
      ensures LabelValues(AssignmentOf(labelNames, values), labelNames)[i] == values[i]
    {
      AssignmentAt(labelNames, values, i);
    }
  }

  /** What of `labels` the names can express. */
  function Restricted(labels: map<Bytes, Bytes>, labelNames: seq<Bytes>): map<Bytes, Bytes> {
    map n | n in labels && n in labelNames && labels[n] != [] :: labels[n]
  }

  lemma {:induction false} ValuesRoundTrip(labels: map<Bytes, Bytes>, labelNames: seq<Bytes>)
    ensures AssignmentOf(labelNames, LabelValues(labels, labelNames)) == Restricted(labels, labelNames)
  {
    if labelNames != [] {
      var n := |labelNames| - 1;
      ValuesRoundTrip(labels, labelNames[..n]);
      assert LabelValues(labels, labelNames)[..n] == LabelValues(labels, labelNames[..n]);
      assert labelNames == labelNames[..n] + [labelNames[n]];
    }
  }

  // ---------------------------------------------------------------------
  // The bytes that are hashed

  const LABELS_SEPARATOR: byte := 255

  /** Everything HashLabelValues writes to the hasher. */
  function Encoded(labelValues: seq<Bytes>): Bytes {
    if labelValues == [] then [] else labelValues[0] + [LABELS_SEPARATOR] + Encoded(labelValues[1..])
  }

  predicate NoSeparator(labelValues: seq<Bytes>) {
    forall v :: v in labelValues ==> LABELS_SEPARATOR !in v
  }

  lemma {:induction false} SameFirst(v: Bytes, rest: Bytes, w: Bytes, rest': Bytes)
    requires LABELS_SEPARATOR !in v && LABELS_SEPARATOR !in w
    requires v + [LABELS_SEPARATOR] + rest == w + [LABELS_SEPARATOR] + rest'
    ensures v == w && rest == rest'
  {
    var x, y := v + [LABELS_SEPARATOR] + rest, w + [LABELS_SEPARATOR] + rest';
    assert x[|v|] == LABELS_SEPARATOR && y[|w|] == LABELS_SEPARATOR;
    assert |v| == |w|;
    assert x[..|v|] == v && y[..|w|] == w;
    assert x[|v| + 1..] == rest && y[|w| + 1..] == rest';
  }

  /** Different values are hashed from different bytes, unless a value contains the separator byte. */
  lemma {:induction false} EncodingIsInjective(a: seq<Bytes>, b: seq<Bytes>)
    requires NoSeparator(a) && NoSeparator(b)
    requires Encoded(a) == Encoded(b)
    ensures a == b
  {
    if a != [] && b != [] {
      assert a[0] in a && b[0] in b;
      SameFirst(a[0], Encoded(a[1..]), b[0], Encoded(b[1..]));
      EncodingIsInjective(a[1..], b[1..]);
      assert a == [a[0]] + a[1..] && b == [b[0]] + b[1..];
    }
  }

  /** With the separator byte inside a value they can coincide. */
  lemma SeparatorInValueCollides()
    ensures Encoded([[LABELS_SEPARATOR], []]) == Encoded([[], [LABELS_SEPARATOR]])
  {
    var s: Bytes := [LABELS_SEPARATOR];
    var e: Bytes := [];
    assert [s, e][1..] == [e] && [e, s][1..] == [s] && [e][1..] == [] && [s][1..] == [];
    assert Encoded([e]) == s && Encoded([s]) == s + s;
    assert Encoded([s, e]) == s + s + s;
    assert Encoded([e, s]) == e + s + (s + s);
  }
}
