/**
 * The statistics operations `mean`, `median` and `mode` on a list of arguments.
 * Each refuses an empty list before it looks at the elements, then validates every
 * element in order, and only then computes.
 */
module Statistics {
  import opened Numbers

  /** The numeric values of a list of numbers. */
  function Reals(vs: seq<Val>): (xs: seq<real>)
    requires AllNumbers(vs)
    ensures |xs| == |vs|
    ensures forall i :: 0 <= i < |vs| ==> xs[i] == vs[i].Real()
  {
    if vs == [] then [] else [vs[0].Real()] + Reals(vs[1..])
  }

  /** Python's `sum`. */
  function Sum(xs: seq<real>): real {
    if xs == [] then 0.0 else xs[0] + Sum(xs[1..])
  }

  /** A sum of `n` values that all lie in `[lo, hi]` lies in `[n * lo, n * hi]`. */
  lemma {:induction false} SumBounds(xs: seq<real>, lo: real, hi: real)
    requires forall i :: 0 <= i < |xs| ==> lo <= xs[i] <= hi
    ensures |xs| as real * lo <= Sum(xs) <= |xs| as real * hi
  {
    if xs != [] {
      SumBounds(xs[1..], lo, hi);
      assert |xs| as real * lo == lo + |xs[1..]| as real * lo;
      assert |xs| as real * hi == hi + |xs[1..]| as real * hi;
    }
  }

  /** `mean(numbers)`: `sum(numbers) / len(numbers)`. */
  function Mean(numbers: seq<Val>): (r: Result<real>)
    ensures |numbers| == 0 ==> r == Err(InvalidOperation(EmptyInput))
    ensures |numbers| > 0 ==> (r.Ok? <==> AllNumbers(numbers)) && RejectsFirstNonNumber(numbers, r)
    ensures r.Ok? ==> AllNumbers(numbers) && r.value * |numbers| as real == Sum(Reals(numbers))
  {
    if |numbers| == 0 then Err(InvalidOperation(EmptyInput))
    else
      match CheckNumbers(numbers)
      case Fail(e) => Err(e)
      case Pass => Ok(Sum(Reals(numbers)) / |numbers| as real)
  }

  /** The mean lies between any lower and upper bound of the numbers; in particular
      the mean of a list of equal numbers is that number. */
  lemma MeanBounded(numbers: seq<Val>, lo: real, hi: real)
    requires Mean(numbers).Ok?
    requires forall i :: 0 <= i < |numbers| ==> lo <= numbers[i].Real() <= hi
    ensures lo <= Mean(numbers).value <= hi
  {
    var xs := Reals(numbers);
    SumBounds(xs, lo, hi);
    var n := |numbers| as real;
    var m := Mean(numbers).value;
    assert n > 0.0 && m * n == Sum(xs);
    PositiveFactor(m - lo, n);
    PositiveFactor(hi - m, n);
  }

  lemma PositiveFactor(a: real, n: real)
    requires n > 0.0 && a * n >= 0.0
    ensures a >= 0.0
  {
  }

  predicate Sorted(s: seq<real>) {
    forall i, j :: 0 <= i < j < |s| ==> s[i] <= s[j]
  }

  /** `s` is `xs` rearranged in ascending order: what `sorted(xs)` returns. */
  ghost predicate IsSortingOf(s: seq<real>, xs: seq<real>) {
    Sorted(s) && multiset(s) == multiset(xs)
  }

  function Insert(x: real, s: seq<real>): (r: seq<real>)
    requires Sorted(s)
    ensures Sorted(r) && multiset(r) == multiset(s) + multiset{x}
  {
    if s == [] || x <= s[0] then [x] + s
    else
      var t := Insert(x, s[1..]);
      assert multiset(t) == multiset(s[1..] + [x]);
      BoundedBelow(s[0], t, s[1..] + [x]);
      SortedPrepend(s[0], t);
      assert s == [s[0]] + s[1..];
      [s[0]] + t
  }

  lemma SortedPrepend(h: real, t: seq<real>)
    requires Sorted(t)
    requires forall j :: 0 <= j < |t| ==> h <= t[j]
    ensures Sorted([h] + t)
  {
    var u := [h] + t;
    forall i, j | 0 <= i < j < |u| ensures u[i] <= u[j] {
      assert u[j] == t[j - 1];
      if i > 0 {
        assert u[i] == t[i - 1];
      }
    }
  }

  /** A lower bound of every element of `b` bounds every element of a rearrangement `a` of `b`. */
  lemma BoundedBelow(h: real, a: seq<real>, b: seq<real>)
    requires multiset(a) == multiset(b)
    requires forall j :: 0 <= j < |b| ==> h <= b[j]
    ensures forall j :: 0 <= j < |a| ==> h <= a[j]
  {
    forall j | 0 <= j < |a| ensures h <= a[j] {
      assert a[j] in multiset(b);
      var k :| 0 <= k < |b| && b[k] == a[j];
    }
  }

  /** An insertion sort, standing for Python's `sorted`. */
  function SortAsc(xs: seq<real>): (s: seq<real>)
    ensures IsSortingOf(s, xs)
  {
    if xs == [] then []
    else
      assert xs == [xs[0]] + xs[1..];
      Insert(xs[0], SortAsc(xs[1..]))
  }

  /** There is only one ascending arrangement of a list, so the median does not
      depend on how the list is sorted. */
  lemma {:induction false} SortingIsUnique(s: seq<real>, t: seq<real>)
    requires Sorted(s) && Sorted(t) && multiset(s) == multiset(t)
    ensures s == t
  {
    assert |s| == |multiset(s)| == |t|;
    if s != [] {
      assert s[0] in multiset(t);
      assert t[0] in multiset(s);
      assert s[0] == t[0];
      assert s == [s[0]] + s[1..];
      assert t == [t[0]] + t[1..];
      assert multiset(s[1..]) == multiset(s) - multiset{s[0]};
      assert multiset(t[1..]) == multiset(t) - multiset{t[0]};
      SortingIsUnique(s[1..], t[1..]);
    }
  }

  /** The middle element of a sorted list of odd length, or the average of the two
      central elements of one of even length. */
  function MiddleOf(s: seq<real>): (m: real)
    requires |s| > 0
    ensures Sorted(s) ==> forall i :: 0 <= i <= (|s| - 1) / 2 ==> s[i] <= m
    ensures Sorted(s) ==> forall i :: |s| / 2 <= i < |s| ==> m <= s[i]
    ensures |s| % 2 == 1 ==> m in s
  {
    var n := |s|;
    if n % 2 == 0 then (s[n / 2 - 1] + s[n / 2]) / 2.0 else s[n / 2]
  }

  /** `median(numbers)` */
  function Median(numbers: seq<Val>): (r: Result<real>)
    ensures |numbers| == 0 ==> r == Err(InvalidOperation(EmptyInput))
    ensures |numbers| > 0 ==> (r.Ok? <==> AllNumbers(numbers)) && RejectsFirstNonNumber(numbers, r)
    ensures r.Ok? ==> (AllNumbers(numbers) &&
                       forall s :: IsSortingOf(s, Reals(numbers)) ==> r.value == MiddleOf(s))
  {
    if |numbers| == 0 then Err(InvalidOperation(EmptyInput))
    else
      match CheckNumbers(numbers)
      case Fail(e) => Err(e)
      case Pass =>
        var sorted := SortAsc(Reals(numbers));
        assert forall s :: IsSortingOf(s, Reals(numbers)) ==> s == sorted by {
          forall s | IsSortingOf(s, Reals(numbers)) ensures s == sorted {
            SortingIsUnique(s, sorted);
          }
        }
        Ok(MiddleOf(sorted))
  }

  /** The median lies between any lower and upper bound of the numbers. */
  lemma MedianBounded(numbers: seq<Val>, lo: real, hi: real)
    requires Median(numbers).Ok?
    requires forall i :: 0 <= i < |numbers| ==> lo <= numbers[i].Real() <= hi
    ensures lo <= Median(numbers).value <= hi
  {
    var xs := Reals(numbers);
    var s := SortAsc(xs);
    forall j | 0 <= j < |s| ensures lo <= s[j] <= hi {
      assert s[j] in multiset(xs);
    }
  }

  /** Position `k` holds the value `mode` returns: it occurs at least as often as any
      other value, and every value met before position `k` occurs strictly less often.
      Values are compared numerically, as the keys of a Python dict are (`1 == 1.0`). */
  ghost predicate IsModeAt(xs: seq<real>, k: int) {
    && 0 <= k < |xs|
    && (forall j :: 0 <= j < |xs| ==> multiset(xs)[xs[j]] <= multiset(xs)[xs[k]])
    && (forall i :: 0 <= i < k ==> multiset(xs)[xs[i]] < multiset(xs)[xs[k]])
  }

  /** The tie-break makes the mode's position unique. */
  lemma ModeIsUnique(xs: seq<real>, k1: int, k2: int)
    requires IsModeAt(xs, k1) && IsModeAt(xs, k2)
    ensures k1 == k2
  {
    assert multiset(xs)[xs[k1]] <= multiset(xs)[xs[k2]];
    assert multiset(xs)[xs[k2]] <= multiset(xs)[xs[k1]];
  }

  /** Position `p` is where the value `xs[p]` first occurs. */
  ghost predicate IsFirstOccurrence(xs: seq<real>, p: int) {
    0 <= p < |xs| && forall j :: 0 <= j < p ==> xs[j] != xs[p]
  }

  /** `keys` lists, in increasing order, the first occurrences of the values met in
      `xs[..i]`: the insertion order of the frequency dict's keys. */
  ghost predicate KeysInInsertionOrder(xs: seq<real>, keys: seq<nat>, i: int) {
    && i <= |xs|
    && (forall m :: 0 <= m < |keys| ==> keys[m] < i && IsFirstOccurrence(xs, keys[m]))
    && (forall m, m' :: 0 <= m < m' < |keys| ==> keys[m] < keys[m'])
    && (forall j :: 0 <= j < i ==> HasKey(xs, keys, j))
  }

  /** The value `xs[j]` is among the keys. */
  ghost predicate HasKey(xs: seq<real>, keys: seq<nat>, j: int) {
    0 <= j < |xs| && exists m :: 0 <= m < |keys| && keys[m] < |xs| && xs[keys[m]] == xs[j]
  }

  /** Counting `xs[i]` adds a key, at the end, exactly when the value is new. */
  lemma KeysStep(xs: seq<real>, keys: seq<nat>, i: nat)
    requires i < |xs| && KeysInInsertionOrder(xs, keys, i)
    ensures xs[i] in xs[..i] ==> KeysInInsertionOrder(xs, keys, i + 1)
    ensures xs[i] !in xs[..i] ==> KeysInInsertionOrder(xs, keys + [i], i + 1)
  {
    if xs[i] in xs[..i] {
      var j :| 0 <= j < i && xs[..i][j] == xs[i];
      assert HasKey(xs, keys, j);
      var m :| 0 <= m < |keys| && keys[m] < |xs| && xs[keys[m]] == xs[j];
      assert HasKey(xs, keys, i);
    } else {
      var keys' := keys + [i];
      forall j | 0 <= j < i ensures xs[j] != xs[i] {
        assert xs[j] == xs[..i][j];
      }
      assert xs[keys'[|keys|]] == xs[i];
      forall j | 0 <= j < i + 1 ensures HasKey(xs, keys', j) {
        if j < i {
          assert HasKey(xs, keys, j);
          var m :| 0 <= m < |keys| && keys[m] < |xs| && xs[keys[m]] == xs[j];
          assert keys'[m] == keys[m];
        } else {
          assert keys'[|keys|] == i;
        }
      }
    }
  }

  /** Once every value is counted, the first key whose count is the largest count is
      the position of the mode. */
  lemma FirstMostFrequentKey(xs: seq<real>, keys: seq<nat>, frequency: map<real, nat>, maxCount: nat, m: nat)
    requires KeysInInsertionOrder(xs, keys, |xs|)
    requires forall j :: 0 <= j < |xs| ==> xs[j] in frequency
    requires forall x :: x in frequency ==> frequency[x] == multiset(xs)[x]
    requires m < |keys|
    requires forall m' :: 0 <= m' < |keys| ==> frequency[xs[keys[m']]] <= maxCount
    requires forall m' :: 0 <= m' < m ==> frequency[xs[keys[m']]] < maxCount
    requires frequency[xs[keys[m]]] == maxCount
    ensures IsModeAt(xs, keys[m])
  {
    var k := keys[m];
    forall j | 0 <= j < |xs| ensures multiset(xs)[xs[j]] <= multiset(xs)[xs[k]] {
      assert HasKey(xs, keys, j);
      var m' :| 0 <= m' < |keys| && keys[m'] < |xs| && xs[keys[m']] == xs[j];
      assert frequency[xs[keys[m']]] <= maxCount;
    }
    forall j | 0 <= j < k ensures multiset(xs)[xs[j]] < multiset(xs)[xs[k]] {
      assert HasKey(xs, keys, j);
      var m' :| 0 <= m' < |keys| && keys[m'] < |xs| && xs[keys[m']] == xs[j];
      assert keys[m'] <= j;
      assert m' < m;
      assert frequency[xs[keys[m']]] < maxCount;
    }
  }

  /** The counting loop of `mode`: `frequency[num] = frequency.get(num, 0) + 1` for
      each number in turn. `keys` is the dict's key order, kept as the positions where
      each key was inserted. */
  method CountFrequencies(xs: seq<real>) returns (frequency: map<real, nat>, keys: seq<nat>)
    ensures forall x :: x in frequency <==> x in xs
    ensures forall j :: 0 <= j < |xs| ==> xs[j] in frequency
    ensures forall x :: x in frequency ==> frequency[x] == multiset(xs)[x]
    ensures KeysInInsertionOrder(xs, keys, |xs|)
    ensures |xs| > 0 ==> |keys| > 0
    ensures forall m :: 0 <= m < |keys| ==> keys[m] < |xs|
  {
    frequency, keys := map[], [];
    var i := 0;
    while i < |xs|
      invariant 0 <= i <= |xs|
      invariant forall x :: x in frequency <==> x in xs[..i]
      invariant forall x :: x in frequency ==> frequency[x] == multiset(xs[..i])[x]
      invariant KeysInInsertionOrder(xs, keys, i)
    {
      var x := xs[i];
      KeysStep(xs, keys, i);
      assert xs[..i + 1] == xs[..i] + [x];
      if x !in frequency {
        keys := keys + [i];
      }
      frequency := frequency[x := (if x in frequency then frequency[x] else 0) + 1];
      i := i + 1;
    }
    assert xs[..i] == xs;
    if |xs| > 0 {
      assert HasKey(xs, keys, 0);
    }
  }

  /** `max(frequency.values())`, then the first key, in insertion order, whose count
      is that maximum: its position in `xs`. */
  method FirstMostFrequent(xs: seq<real>, frequency: map<real, nat>, keys: seq<nat>) returns (k: nat)
    requires |xs| > 0
    requires forall j :: 0 <= j < |xs| ==> xs[j] in frequency
    requires forall x :: x in frequency ==> frequency[x] == multiset(xs)[x]
    requires KeysInInsertionOrder(xs, keys, |xs|)
    requires |keys| > 0
    requires forall m :: 0 <= m < |keys| ==> keys[m] < |xs|
    ensures IsModeAt(xs, k)
  {

    // max(frequency.values())
    var maxCount := frequency[xs[keys[0]]];
    ghost var maxAt := 0;
    var m := 1;
    while m < |keys|
      invariant 1 <= m <= |keys|
      invariant forall m' :: 0 <= m' < m ==> frequency[xs[keys[m']]] <= maxCount
      invariant 0 <= maxAt < |keys| && frequency[xs[keys[maxAt]]] == maxCount
    {
      if frequency[xs[keys[m]]] > maxCount {
        maxCount := frequency[xs[keys[m]]];
        maxAt := m;
      }
      m := m + 1;
    }

    // the first of [num for num, count in frequency.items() if count == max_count]
    m := 0;
    while frequency[xs[keys[m]]] != maxCount
      invariant 0 <= m <= maxAt
      invariant forall m' :: 0 <= m' < m ==> frequency[xs[keys[m']]] < maxCount
      decreases maxAt - m
    {
      m := m + 1;
    }

    FirstMostFrequentKey(xs, keys, frequency, maxCount, m);
    k := keys[m];
  }

  /** `mode(numbers)`: counts every value in a dict, then returns the first key, in
      insertion order, whose count is the largest. */
  method Mode(numbers: seq<Val>) returns (r: Result<Val>)
    ensures |numbers| == 0 ==> r == Err(InvalidOperation(EmptyInput))
    ensures |numbers| > 0 ==> (r.Ok? <==> AllNumbers(numbers)) && RejectsFirstNonNumber(numbers, r)
    ensures r.Ok? ==> (AllNumbers(numbers) &&
                       exists k :: IsModeAt(Reals(numbers), k) && r.value == numbers[k])
  {
    if |numbers| == 0 {
      return Err(InvalidOperation(EmptyInput));
    }
    var valid := ValidateNumbers(numbers);
    if valid.Fail? {
      return Err(valid.error);
    }
    var xs := Reals(numbers);
    var frequency, keys := CountFrequencies(xs);
    var k := FirstMostFrequent(xs, frequency, keys);
    r := Ok(numbers[k]);
  }
}
