/** The Cartesian product of a list of lists, in the order in which the
    standard library's product enumerates it: lexicographic by position, with
    the last list varying fastest. */
module CartesianProduct {

  /** `h` put in front of every tail, in order. */
  function Prefixed<T>(h: T, tails: seq<seq<T>>): (r: seq<seq<T>>)
    ensures |r| == |tails|
    ensures forall i :: 0 <= i < |tails| ==> r[i] == [h] + tails[i]
  {
    seq(|tails|, i requires 0 <= i < |tails| => [h] + tails[i])
  }

  /** Every head in front of every tail: all tails for the first head, then all for the next. */
  function PrependEach<T>(heads: seq<T>, tails: seq<seq<T>>): seq<seq<T>>
  {
    if |heads| == 0 then [] else Prefixed(heads[0], tails) + PrependEach(heads[1..], tails)
  }

  function Product<T>(lists: seq<seq<T>>): seq<seq<T>>
    decreases |lists|
  {
    if |lists| == 0 then [[]] else PrependEach(lists[0], Product(lists[1..]))
  }

  /** The number of combinations: the product of the lengths. */
  function ProductSize<T>(lists: seq<seq<T>>): nat
    decreases |lists|
  {
    if |lists| == 0 then 1 else |lists[0]| * ProductSize(lists[1..])
  }

  lemma {:induction false} PrependEachLength<T>(heads: seq<T>, tails: seq<seq<T>>)
    ensures |PrependEach(heads, tails)| == |heads| * |tails|
    decreases |heads|
  {
    if |heads| > 0 {
      PrependEachLength(heads[1..], tails);
      assert |heads| * |tails| == |tails| + (|heads| - 1) * |tails|;
    }
  }

  /** There are exactly as many combinations as the product of the lengths. */
  lemma {:induction false} ProductLength<T>(lists: seq<seq<T>>)
    ensures |Product(lists)| == ProductSize(lists)
    decreases |lists|
  {
    if |lists| > 0 {
      ProductLength(lists[1..]);
      PrependEachLength(lists[0], Product(lists[1..]));
    }
  }

  /** Position i*m + j of an n-by-m grid read row by row lies inside the grid. */
  lemma IndexBound(i: int, j: int, n: int, m: int)
    requires 0 <= i < n && 0 <= j < m
    ensures 0 <= i * m + j < n * m
  {
    assert (i + 1) * m <= n * m;
  }

  /** Head i comes before tail j at position i*|tails| + j: all tails for one
      head, then all tails for the next. */
  lemma {:induction false} PrependEachAt<T>(heads: seq<T>, tails: seq<seq<T>>, i: int, j: int)
    requires 0 <= i < |heads| && 0 <= j < |tails|
    ensures i * |tails| + j < |PrependEach(heads, tails)|
    ensures PrependEach(heads, tails)[i * |tails| + j] == [heads[i]] + tails[j]
    decreases i
  {
    PrependEachLength(heads, tails);
    IndexBound(i, j, |heads|, |tails|);
    if i > 0 {
      PrependEachAt(heads[1..], tails, i - 1, j);
      assert i * |tails| + j == |tails| + ((i - 1) * |tails| + j);
    }
  }

  /** Reading nested positions back as one mixed-radix number. */
  lemma MixedRadix(i1: int, i2: int, i3: int, i4: int, i5: int, m2: int, m3: int, m4: int, m5: int)
    ensures i1 * (m2 * (m3 * (m4 * m5))) + (i2 * (m3 * (m4 * m5)) + (i3 * (m4 * m5) + (i4 * m5 + i5)))
            == (((i1 * m2 + i2) * m3 + i3) * m4 + i4) * m5 + i5
  {
    var a := i1 * m2 + i2;
    var b := a * m3 + i3;
    assert (b * m4 + i4) * m5 == b * (m4 * m5) + i4 * m5;
    assert b * (m4 * m5) == a * (m3 * (m4 * m5)) + i3 * (m4 * m5);
    assert a * (m3 * (m4 * m5)) == i1 * (m2 * (m3 * (m4 * m5))) + i2 * (m3 * (m4 * m5));
  }

  /** The position of the tuple picking entry idx[j] of every list j, the
      first list being the most significant digit. */
  function Position<T>(lists: seq<seq<T>>, idx: seq<int>): int
    requires |idx| == |lists|
    decreases |lists|
  {
    if |lists| == 0 then 0 else idx[0] * ProductSize(lists[1..]) + Position(lists[1..], idx[1..])
  }

  /** The tuple picking entry idx[j] of every list j sits at Position(lists, idx). */
  lemma {:induction false} ProductAt<T>(lists: seq<seq<T>>, idx: seq<int>)
    requires |idx| == |lists| && forall j :: 0 <= j < |lists| ==> 0 <= idx[j] < |lists[j]|
    ensures 0 <= Position(lists, idx) < |Product(lists)|
    ensures Product(lists)[Position(lists, idx)] == seq(|lists|, j requires 0 <= j < |lists| => lists[j][idx[j]])
    decreases |lists|
  {
    ProductLength(lists);
    if |lists| > 0 {
      var tl, ti := lists[1..], idx[1..];
      assert forall j :: 0 <= j < |tl| ==> tl[j] == lists[j + 1] && ti[j] == idx[j + 1];
      ProductAt(tl, ti);
      ProductLength(tl);
      PrependEachAt(lists[0], Product(tl), idx[0], Position(tl, ti));
    }
  }

  /** In the product of five lists, the tuple of entries (i1, ..., i5) sits at
      the mixed-radix position of those indices: the last list varies fastest. */
  lemma ProductOfFiveAt<T>(a: seq<T>, b: seq<T>, c: seq<T>, d: seq<T>, e: seq<T>,
                           i1: int, i2: int, i3: int, i4: int, i5: int)
    requires 0 <= i1 < |a| && 0 <= i2 < |b| && 0 <= i3 < |c| && 0 <= i4 < |d| && 0 <= i5 < |e|
    ensures 0 <= (((i1 * |b| + i2) * |c| + i3) * |d| + i4) * |e| + i5 < |Product([a, b, c, d, e])|
    ensures Product([a, b, c, d, e])[(((i1 * |b| + i2) * |c| + i3) * |d| + i4) * |e| + i5]
            == [a[i1], b[i2], c[i3], d[i4], e[i5]]
  {
    var lists, idx := [a, b, c, d, e], [i1, i2, i3, i4, i5];
    ProductAt(lists, idx);
    assert Position(lists, idx) == (((i1 * |b| + i2) * |c| + i3) * |d| + i4) * |e| + i5 by {
      assert lists[1..] == [b, c, d, e] && idx[1..] == [i2, i3, i4, i5];
      assert lists[2..] == [c, d, e] && idx[2..] == [i3, i4, i5];
      assert lists[3..] == [d, e] && idx[3..] == [i4, i5];
      assert lists[4..] == [e] && idx[4..] == [i5];
      assert lists[5..] == [] && idx[5..] == [];
      assert ProductSize(lists[4..]) == |e|;
      assert ProductSize(lists[3..]) == |d| * |e|;
      assert ProductSize(lists[2..]) == |c| * (|d| * |e|);
      assert ProductSize(lists[1..]) == |b| * (|c| * (|d| * |e|));
      assert Position(lists[4..], idx[4..]) == i5;
      assert Position(lists[3..], idx[3..]) == i4 * |e| + i5;
      assert Position(lists[2..], idx[2..]) == i3 * (|d| * |e|) + (i4 * |e| + i5);
      assert Position(lists[1..], idx[1..]) == i2 * (|c| * (|d| * |e|)) + (i3 * (|d| * |e|) + (i4 * |e| + i5));
      MixedRadix(i1, i2, i3, i4, i5, |b|, |c|, |d|, |e|);
    }
  }

  lemma {:induction false} PrependEachMember<T>(heads: seq<T>, tails: seq<seq<T>>, c: seq<T>)
    ensures c in PrependEach(heads, tails) <==> |c| > 0 && c[0] in heads && c[1..] in tails
    decreases |heads|
  {
    if |heads| > 0 {
      PrependEachMember(heads[1..], tails, c);
      var front := Prefixed(heads[0], tails);
      assert heads == [heads[0]] + heads[1..];
      if |c| > 0 && c[0] == heads[0] && c[1..] in tails {
        var i :| 0 <= i < |tails| && tails[i] == c[1..];
        assert front[i] == c;
      }
      if c in front {
        var i :| 0 <= i < |front| && front[i] == c;
        assert c[1..] == tails[i];
      }
    }
  }

  /** A list is a combination exactly when it has one entry per list and each
      entry is taken from its list. */
  lemma {:induction false} ProductMember<T>(lists: seq<seq<T>>, c: seq<T>)
    ensures c in Product(lists) <==> |c| == |lists| && forall j :: 0 <= j < |lists| ==> c[j] in lists[j]
    decreases |lists|
  {
    if |lists| > 0 {
      PrependEachMember(lists[0], Product(lists[1..]), c);
      if |c| > 0 {
        ProductMember(lists[1..], c[1..]);
        if |c| == |lists| && forall j :: 0 <= j < |lists| ==> c[j] in lists[j] {
          forall j | 0 <= j < |lists| - 1
            ensures c[1..][j] in lists[1..][j]
          {
            assert c[1..][j] == c[j + 1];
          }
        }
        if c[0] in lists[0] && c[1..] in Product(lists[1..]) {
          forall j | 0 <= j < |lists|
            ensures c[j] in lists[j]
          {
            if j > 0 {
              assert c[j] == c[1..][j - 1];
            }
          }
        }
      }
    }
  }

  /** Every combination has one entry per list, each taken from its list. */
  lemma ProductShape<T>(lists: seq<seq<T>>)
    ensures forall k :: 0 <= k < |Product(lists)| ==>
      |Product(lists)[k]| == |lists| && forall j :: 0 <= j < |lists| ==> Product(lists)[k][j] in lists[j]
  {
    forall k | 0 <= k < |Product(lists)|
      ensures |Product(lists)[k]| == |lists| && forall j :: 0 <= j < |lists| ==> Product(lists)[k][j] in lists[j]
    {
      ProductMember(lists, Product(lists)[k]);
    }
  }
}
