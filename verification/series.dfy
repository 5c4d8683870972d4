/** The pandas reductions the dashboard applies to one column, with pandas'
    treatment of missing cells written out: `count` counts the present
    cells, `sum` adds the present values (0 when there are none), `mean`
    divides that sum by that count (undefined when the count is 0), and
    `value_counts` groups equal present values and ignores missing ones. */
module Series {
  import opened Wrappers

  /** `Series.dropna()`: the present values, in order. */
  function Present<T>(xs: seq<Option<T>>): (r: seq<T>)
    ensures |r| <= |xs|
  {
    if xs == [] then []
    else (if xs[0].Some? then [xs[0].value] else []) + Present(xs[1..])
  }

  /** `Series.count()`: the number of present cells. */
  function Count<T>(xs: seq<Option<T>>): nat
  {
    if xs == [] then 0
    else (if xs[0].Some? then 1 else 0) + Count(xs[1..])
  }

  function Sum(xs: seq<real>): real
  {
    if xs == [] then 0.0 else xs[0] + Sum(xs[1..])
  }

  /** `Series.sum()`: the sum of the present values. */
  function Total(xs: seq<Option<real>>): real
  {
    if xs == [] then 0.0
    else (if xs[0].Some? then xs[0].value else 0.0) + Total(xs[1..])
  }

  /** `Series.mean()`: `None` stands for the NaN pandas gives when no value
      is present. */
  function Mean(xs: seq<Option<real>>): (m: Option<real>)
    ensures m.None? <==> Count(xs) == 0
    ensures m.Some? ==> m.value * Count(xs) as real == Total(xs)
  {
    if Count(xs) == 0 then None else Some(Total(xs) / Count(xs) as real)
  }

  /** `count` and `sum` are the length and the sum of `dropna()`. */
  lemma {:induction false} SkipMissing(xs: seq<Option<real>>)
    ensures Count(xs) == |Present(xs)|
    ensures Total(xs) == Sum(Present(xs))
  {
    if xs != [] {
      SkipMissing(xs[1..]);
      if xs[0].Some? {
        var p := [xs[0].value] + Present(xs[1..]);
        assert p[1..] == Present(xs[1..]);
      } else {
        assert Present(xs) == Present(xs[1..]);
      }
    }
  }

  lemma {:induction false} CountBounds<T>(xs: seq<Option<T>>)
    ensures Count(xs) <= |xs|
    ensures Count(xs) == |xs| <==> forall i :: 0 <= i < |xs| ==> xs[i].Some?
    ensures Count(xs) == 0 <==> forall i :: 0 <= i < |xs| ==> xs[i].None?
  {
    if xs != [] {
      CountBounds(xs[1..]);
      assert forall i :: 1 <= i < |xs| ==> xs[i] == xs[1..][i - 1];
    }
  }

  lemma {:induction false} CountAppend<T>(xs: seq<Option<T>>, ys: seq<Option<T>>)
    ensures Count(xs + ys) == Count(xs) + Count(ys)
  {
    if xs != [] {
      CountAppend(xs[1..], ys);
      assert (xs + ys)[1..] == xs[1..] + ys;
    } else {
      assert xs + ys == ys;
    }
  }

  /** When every present value lies in [lo, hi], the total lies between
      lo and hi times the count. */
  lemma {:induction false} TotalBounds(xs: seq<Option<real>>, lo: real, hi: real)
    requires forall i :: 0 <= i < |xs| && xs[i].Some? ==> lo <= xs[i].value <= hi
    ensures lo * Count(xs) as real <= Total(xs) <= hi * Count(xs) as real
  {
    if xs != [] {
      var rest := xs[1..];
      assert forall i :: 0 <= i < |rest| ==> rest[i] == xs[i + 1];
      TotalBounds(rest, lo, hi);
      var c := Count(rest) as real;
      var t := Total(rest);
      if xs[0].Some? {
        var v := xs[0].value;
        assert Count(xs) as real == c + 1.0 && Total(xs) == v + t;
        Distribute(lo, c);
        Distribute(hi, c);
      } else {
        assert Count(xs) as real == c && Total(xs) == t;
      }
    }
  }

  lemma Distribute(a: real, c: real)
    ensures a * (c + 1.0) == a * c + a
  {
  }

  /** Dividing bounds on a total by a positive count. */
  lemma Quotient(m: real, c: real, t: real, lo: real, hi: real)
    requires c > 0.0 && m * c == t && lo * c <= t <= hi * c
    ensures lo <= m <= hi
  {
  }

  /** The mean of values in [lo, hi] is in [lo, hi]. */
  lemma {:induction false} MeanBounds(xs: seq<Option<real>>, lo: real, hi: real)
    requires forall i :: 0 <= i < |xs| && xs[i].Some? ==> lo <= xs[i].value <= hi
    requires Count(xs) > 0
    ensures lo <= Mean(xs).value <= hi
  {
    TotalBounds(xs, lo, hi);
    Quotient(Mean(xs).value, Count(xs) as real, Total(xs), lo, hi);
  }

  // ---------------------------------------------------------------------
  // value_counts

  /** How many cells hold `k`. */
  function Occurrences<T(==)>(xs: seq<Option<T>>, k: T): nat
  {
    if xs == [] then 0
    else (if xs[0] == Some(k) then 1 else 0) + Occurrences(xs[1..], k)
  }

  function Keys<T>(groups: seq<(T, nat)>): set<T>
  {
    set g | g in groups :: g.0
  }

  /** The count a group list gives for `k` (0 when `k` has no group). */
  function CountOf<T(==)>(groups: seq<(T, nat)>, k: T): nat
  {
    if groups == [] then 0
    else if groups[0].0 == k then groups[0].1
    else CountOf(groups[1..], k)
  }

  function CountsTotal<T>(groups: seq<(T, nat)>): nat
  {
    if groups == [] then 0 else groups[0].1 + CountsTotal(groups[1..])
  }

  predicate DistinctKeys<T(==)>(groups: seq<(T, nat)>)
  {
    forall i, j :: 0 <= i < j < |groups| ==> groups[i].0 != groups[j].0
  }

  /** One more occurrence of `k`: its group grows by one, or a new group
      `(k, 1)` goes at the end. */
  function Bump<T(==)>(groups: seq<(T, nat)>, k: T): seq<(T, nat)>
  {
    if groups == [] then [(k, 1)]
    else if groups[0].0 == k then [(k, groups[0].1 + 1)] + groups[1..]
    else [groups[0]] + Bump(groups[1..], k)
  }

  /** `Series.value_counts()`: one group per distinct present value, in the
      order of first appearance. */
  function ValueCounts<T(==)>(xs: seq<Option<T>>): seq<(T, nat)>
  {
    if xs == [] then []
    else
      var groups := ValueCounts(xs[..|xs| - 1]);
      match xs[|xs| - 1]
      case None => groups
      case Some(k) => Bump(groups, k)
  }

  lemma {:induction false} BumpKeys<T>(groups: seq<(T, nat)>, k: T)
    ensures Keys(Bump(groups, k)) == Keys(groups) + {k}
  {
    if groups != [] {
      var rest := groups[1..];
      assert groups == [groups[0]] + rest;
      assert Keys(groups) == {groups[0].0} + Keys(rest);
      if groups[0].0 == k {
        assert Keys([(k, groups[0].1 + 1)] + rest) == {k} + Keys(rest);
      } else {
        BumpKeys(rest, k);
        assert Keys([groups[0]] + Bump(rest, k)) == {groups[0].0} + Keys(Bump(rest, k));
      }
    } else {
      assert Keys([(k, 1)]) == {k};
    }
  }

  lemma {:induction false} BumpDistinct<T>(groups: seq<(T, nat)>, k: T)
    requires DistinctKeys(groups)
    ensures DistinctKeys(Bump(groups, k))
  {
    if groups != [] {
      var rest := groups[1..];
      var b := Bump(groups, k);
      if groups[0].0 == k {
        forall i, j | 0 <= i < j < |b| ensures b[i].0 != b[j].0 {
          assert b[i].0 == groups[i].0 && b[j].0 == groups[j].0;
        }
      } else {
        assert DistinctKeys(rest) by {
          forall i, j | 0 <= i < j < |rest| ensures rest[i].0 != rest[j].0 {
            assert rest[i] == groups[i + 1] && rest[j] == groups[j + 1];
          }
        }
        BumpDistinct(rest, k);
        BumpKeys(rest, k);
        assert groups[0].0 !in Keys(rest) by {
          forall i | 0 <= i < |rest| ensures rest[i].0 != groups[0].0 { assert rest[i] == groups[i + 1]; }
        }
        forall i, j | 0 <= i < j < |b| ensures b[i].0 != b[j].0 {
          if i == 0 {
            assert b[j] in Bump(rest, k);
            assert b[j].0 in Keys(Bump(rest, k));
          } else {
            assert b[i] == Bump(rest, k)[i - 1] && b[j] == Bump(rest, k)[j - 1];
          }
        }
      }
    }
  }

  lemma {:induction false} BumpCounts<T>(groups: seq<(T, nat)>, k: T)
    requires forall g :: g in groups ==> g.1 >= 1
    ensures forall g :: g in Bump(groups, k) ==> g.1 >= 1
    ensures CountsTotal(Bump(groups, k)) == CountsTotal(groups) + 1
    ensures forall j :: CountOf(Bump(groups, k), j) == CountOf(groups, j) + (if j == k then 1 else 0)
  {
    if groups != [] {
      var rest := groups[1..];
      assert forall g :: g in rest ==> g in groups;
      if groups[0].0 == k {
        var b := [(k, groups[0].1 + 1)] + rest;
        assert b[1..] == rest;
      } else {
        BumpCounts(rest, k);
        var b := [groups[0]] + Bump(rest, k);
        assert b[1..] == Bump(rest, k);
      }
    }
  }

  lemma {:induction false} OccurrencesAppend<T>(xs: seq<Option<T>>, x: Option<T>, k: T)
    ensures Occurrences(xs + [x], k) == Occurrences(xs, k) + (if x == Some(k) then 1 else 0)
  {
    if xs != [] {
      OccurrencesAppend(xs[1..], x, k);
      assert (xs + [x])[1..] == xs[1..] + [x];
    }
  }

  /** value_counts has one group per distinct present value, counting
      exactly that value's cells (so each count is at least 1), and the
      counts add up to the number of present cells. */
  lemma {:induction false} ValueCountsFacts<T>(xs: seq<Option<T>>)
    ensures DistinctKeys(ValueCounts(xs))
    ensures Keys(ValueCounts(xs)) == set x | x in Present(xs)
    ensures forall g :: g in ValueCounts(xs) ==> g.1 >= 1
    ensures forall k :: CountOf(ValueCounts(xs), k) == Occurrences(xs, k)
    ensures CountsTotal(ValueCounts(xs)) == Count(xs)
  {
    if xs != [] {
      var init, last := xs[..|xs| - 1], xs[|xs| - 1];
      assert xs == init + [last];
      ValueCountsFacts(init);
      CountAppend(init, [last]);
      PresentAppend(init, [last]);
      forall k ensures Occurrences(xs, k) == Occurrences(init, k) + (if last == Some(k) then 1 else 0) {
        OccurrencesAppend(init, last, k);
      }
      if last.Some? {
        BumpKeys(ValueCounts(init), last.value);
        BumpDistinct(ValueCounts(init), last.value);
        BumpCounts(ValueCounts(init), last.value);
      }
    }
  }

  lemma {:induction false} PresentAppend<T>(xs: seq<Option<T>>, ys: seq<Option<T>>)
    ensures Present(xs + ys) == Present(xs) + Present(ys)
  {
    if xs != [] {
      PresentAppend(xs[1..], ys);
      assert (xs + ys)[1..] == xs[1..] + ys;
    } else {
      assert xs + ys == ys;
    }
  }
}
