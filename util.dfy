/** Small sequence helpers shared by the game model. */
module Util {

  datatype Option<T> = None | Some(value: T)

  /**
   * The elements of `s` whose flag in `mask` is set, in their original order.
   * This is what an erase-while-iterating pass over a vector leaves behind.
   */
  function Keep<T>(s: seq<T>, mask: seq<bool>): (r: seq<T>)
    requires |mask| == |s|
    ensures |r| == Count(mask)
    ensures forall x :: x in r ==> x in s
    ensures (forall i :: 0 <= i < |s| ==> mask[i]) ==> r == s
  {
    if s == [] then []
    else
      Keep(s[..|s| - 1], mask[..|s| - 1]) + (if mask[|s| - 1] then [s[|s| - 1]] else [])
  }

  /** Every element whose flag is set is among those kept. */
  lemma {:induction false} KeepKeepsFlagged<T>(s: seq<T>, mask: seq<bool>, i: nat)
    requires |mask| == |s| && i < |s| && mask[i]
    ensures s[i] in Keep(s, mask)
    decreases |s|
  {
    var n := |s| - 1;
    if i < n {
      KeepKeepsFlagged(s[..n], mask[..n], i);
    }
  }

  /** What holds of every flagged element holds of every element kept. */
  lemma {:induction false} KeepWhere<T>(s: seq<T>, mask: seq<bool>, P: T -> bool)
    requires |mask| == |s|
    requires forall i :: 0 <= i < |s| && mask[i] ==> P(s[i])
    ensures forall i :: 0 <= i < |Keep(s, mask)| ==> P(Keep(s, mask)[i])
    decreases |s|
  {
    if s != [] {
      var n := |s| - 1;
      KeepWhere(s[..n], mask[..n], P);
    }
  }

  /** A sweep that has visited every position has kept exactly the flagged elements. */
  lemma SweepDone<T>(after: seq<T>, before: seq<T>, mask: seq<bool>, cur: seq<T>)
    requires |after| == |before| == |mask|
    requires cur == Keep(after[..|before|], mask[..|before|]) + before[|before|..]
    ensures cur == Keep(after, mask)
  {
    assert after[..|before|] == after && mask[..|before|] == mask;
  }

  /** A prefix as long as the sequence is the whole sequence. */
  lemma WholePrefix<T>(s: seq<T>, d: nat)
    requires d == |s|
    ensures s[..d] == s
  { }

  /** Writing an element over itself changes nothing. */
  lemma UpdateSame<T>(s: seq<T>, i: nat, x: T)
    requires i < |s| && s[i] == x
    ensures s[i := x] == s
  { }

  /** Appending in two steps is appending the two parts at once. */
  lemma AppendTwice<T>(a: seq<T>, b: seq<T>, c: seq<T>)
    ensures a + b + c == a + (b + c)
  {
  }

  /** Total of a sequence of frame times. */
  function Sum(s: seq<real>): real
  {
    if s == [] then 0.0 else s[0] + Sum(s[1..])
  }

  /** Number of set flags. */
  function Count(mask: seq<bool>): (n: nat)
    ensures n <= |mask|
  {
    if mask == [] then 0 else Count(mask[..|mask| - 1]) + (if mask[|mask| - 1] then 1 else 0)
  }

  /** Extending the examined prefix by one element extends the result by that element or by nothing. */
  lemma KeepSnoc<T>(s: seq<T>, mask: seq<bool>, k: nat)
    requires |mask| == |s| && k < |s|
    ensures Keep(s[..k + 1], mask[..k + 1])
         == Keep(s[..k], mask[..k]) + (if mask[k] then [s[k]] else [])
  {
    assert s[..k + 1][..k] == s[..k];
    assert mask[..k + 1][..k] == mask[..k];
  }

  lemma CountSnoc(mask: seq<bool>, k: nat)
    requires k < |mask|
    ensures Count(mask[..k + 1]) == Count(mask[..k]) + (if mask[k] then 1 else 0)
  {
    assert mask[..k + 1][..k] == mask[..k];
  }

  /** Pointwise conjunction of two masks. */
  function Both(m1: seq<bool>, m2: seq<bool>): (r: seq<bool>)
    requires |m1| == |m2|
    ensures |r| == |m1|
    ensures forall i :: 0 <= i < |m1| ==> r[i] == (m1[i] && m2[i])
  {
    seq(|m1|, i requires 0 <= i < |m1| => m1[i] && m2[i])
  }

  /** Keep examines the last pair and recurses on the rest. */
  lemma KeepAppendOne<T>(s: seq<T>, mask: seq<bool>, x: T, b: bool)
    requires |mask| == |s|
    ensures Keep(s + [x], mask + [b]) == Keep(s, mask) + (if b then [x] else [])
  {
    assert (s + [x])[..|s|] == s;
    assert (mask + [b])[..|s|] == mask;
  }

  /**
   * Two erase passes in a row, the second judging only what the first left,
   * remove exactly what a single pass with both tests would remove.
   */
  lemma {:induction false} KeepTwice<T>(s: seq<T>, m1: seq<bool>, m2: seq<bool>)
    requires |m1| == |s| && |m2| == |s|
    ensures Keep(Keep(s, m1), Keep(m2, m1)) == Keep(s, Both(m1, m2))
  {
    if s != [] {
      var n := |s| - 1;
      var a, b := Keep(s[..n], m1[..n]), Keep(m2[..n], m1[..n]);
      var both := Both(m1, m2);
      var front := Both(m1[..n], m2[..n]);
      KeepTwice(s[..n], m1[..n], m2[..n]);
      assert Keep(a, b) == Keep(s[..n], front);
      assert both[..n] == front by {
        forall i | 0 <= i < n
          ensures both[..n][i] == front[i]
        {
        }
      }
      assert Keep(s, both) == Keep(s[..n], front) + (if both[n] then [s[n]] else []);
      if m1[n] {
        assert Keep(s, m1) == a + [s[n]];
        assert Keep(m2, m1) == b + [m2[n]];
        KeepAppendOne(a, b, s[n], m2[n]);
      } else {
        assert Keep(s, m1) == a;
        assert Keep(m2, m1) == b;
      }
    }
  }

  /** Where a sweep stands at its `d`-th visit: on the element first listed at `d`. */
  lemma SweepAt<T>(s: seq<T>, mask: seq<bool>, d: nat, cur: seq<T>)
    requires |mask| == |s| && d < |s|
    requires cur == Keep(s[..d], mask[..d]) + s[d..]
    ensures |Keep(s[..d], mask[..d])| < |cur| && cur[|Keep(s[..d], mask[..d])|] == s[d]
  {
    SweepStep(s, s, mask, d, cur);
  }

  /**
   * One visit of a sweep that erases, in place, the elements whose flag is
   * clear: the element at `i` is erased, or kept and stepped over.
   */
  method SweepOnce<T>(ghost s: seq<T>, ghost mask: seq<bool>, ghost d: nat, cur: seq<T>, i: nat, keep: bool)
    returns (cur': seq<T>, i': nat)
    requires |mask| == |s| && d < |s| && keep == mask[d]
    requires cur == Keep(s[..d], mask[..d]) + s[d..] && i == |Keep(s[..d], mask[..d])|
    ensures cur' == Keep(s[..d + 1], mask[..d + 1]) + s[d + 1..] && i' == |Keep(s[..d + 1], mask[..d + 1])|
  {
    SweepStep(s, s, mask, d, cur);
    if keep {
      UpdateSame(cur, i, s[d]);
      cur', i' := cur, i + 1;
    } else {
      cur', i' := cur[..i] + cur[i + 1..], i;
    }
  }

  /**
   * One step of a sweep that rewrites a list in place: the first `d`
   * elements were judged, the kept ones rewritten to their `after` form, and
   * the rest is still as `before`. Judging element `d` either rewrites it
   * where it stands or erases it.
   */
  lemma SweepStep<T>(after: seq<T>, before: seq<T>, mask: seq<bool>, d: nat, cur: seq<T>)
    requires |after| == |before| == |mask| && d < |before|
    requires cur == Keep(after[..d], mask[..d]) + before[d..]
    ensures |Keep(after[..d], mask[..d])| < |cur| && cur[|Keep(after[..d], mask[..d])|] == before[d]
    ensures mask[d] ==>
              cur[|Keep(after[..d], mask[..d])| := after[d]] == Keep(after[..d + 1], mask[..d + 1]) + before[d + 1..] &&
              |Keep(after[..d + 1], mask[..d + 1])| == |Keep(after[..d], mask[..d])| + 1
    ensures !mask[d] ==>
              cur[..|Keep(after[..d], mask[..d])|] + cur[|Keep(after[..d], mask[..d])| + 1..]
                == Keep(after[..d + 1], mask[..d + 1]) + before[d + 1..] &&
              |Keep(after[..d + 1], mask[..d + 1])| == |Keep(after[..d], mask[..d])|
  {
    var k := Keep(after[..d], mask[..d]);
    KeepSnoc(after, mask, d);
    assert before[d..] == [before[d]] + before[d + 1..];
    Surgery(k, before[d], before[d + 1..], after[d]);
  }

  /** Overwriting or cutting out the element that follows a prefix. */
  lemma Surgery<T>(k: seq<T>, x: T, rest: seq<T>, y: T)
    ensures (k + ([x] + rest))[|k|] == x
    ensures (k + ([x] + rest))[|k| := y] == k + [y] + rest
    ensures (k + ([x] + rest))[..|k|] + (k + ([x] + rest))[|k| + 1..] == k + rest
  {
    var c := k + ([x] + rest);
    assert c[..|k|] == k;
    assert c[|k| + 1..] == rest;
  }
}
