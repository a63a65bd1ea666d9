/** The smoothing windows of PostureWorker: bounded FIFO lists of the most
    recent samples, the median that numpy computes over the numeric ones and
    the majority vote over the gaze labels. */
module Smoothing {

  /** SMOOTH_N: the capacity of every window. */
  const SmoothN: nat := 7

  function Min(a: int, b: int): int
  {
    if a <= b then a else b
  }

  /** The last min(|s|, n) elements of s, in their original order. */
  function LastN<T>(s: seq<T>, n: nat): (r: seq<T>)
    ensures |r| == Min(|s|, n)
    ensures r == s[|s| - |r|..]
  {
    s[|s| - Min(|s|, n)..]
  }

  /** One `append` followed by `pop(0)` when the list has grown past SMOOTH_N. */
  function Slide<T>(w: seq<T>, x: T): (r: seq<T>)
    ensures |w| <= SmoothN ==> |r| <= SmoothN
    ensures r != [] && r[|r| - 1] == x
  {
    var appended := w + [x];
    if |appended| > SmoothN then appended[1..] else appended
  }

  /** A window that respects the bound keeps the newest SMOOTH_N samples,
      oldest first, after a push. */
  lemma SlideKeepsNewest<T>(w: seq<T>, x: T)
    requires |w| <= SmoothN
    ensures Slide(w, x) == LastN(w + [x], SmoothN)
  {
  }

  /** A push brings in nothing but the new sample. */
  lemma SlideMembers<T>(w: seq<T>, x: T)
    ensures forall y :: y in Slide(w, x) ==> y in w || y == x
  {
  }

  /** The window after the samples xs have been pushed one by one. */
  function Fill<T>(w: seq<T>, xs: seq<T>): (r: seq<T>)
    ensures |w| <= SmoothN ==> |r| <= SmoothN
  {
    if xs == [] then w else Slide(Fill(w, xs[..|xs| - 1]), xs[|xs| - 1])
  }

  lemma LastNOfLastN<T>(s: seq<T>, x: T)
    ensures LastN(LastN(s, SmoothN) + [x], SmoothN) == LastN(s + [x], SmoothN)
  {
    if |s| >= SmoothN {
      var tail := s[|s| - SmoothN + 1..];
      assert LastN(s, SmoothN) + [x] == [s[|s| - SmoothN]] + tail + [x];
      assert LastN(LastN(s, SmoothN) + [x], SmoothN) == tail + [x];
      assert LastN(s + [x], SmoothN) == tail + [x];
    }
  }

  /** Whatever it held before, a window of at most SMOOTH_N samples that is fed
      the samples xs holds exactly the last SMOOTH_N of its old contents
      followed by xs, oldest first. */
  lemma {:induction false} FillKeepsLastSamples<T>(w: seq<T>, xs: seq<T>)
    requires |w| <= SmoothN
    ensures Fill(w, xs) == LastN(w + xs, SmoothN)
    ensures |Fill(w, xs)| <= SmoothN
  {
    if xs == [] {
      assert w + xs == w;
    } else {
      var front, x := xs[..|xs| - 1], xs[|xs| - 1];
      FillKeepsLastSamples(w, front);
      SlideKeepsNewest(Fill(w, front), x);
      LastNOfLastN(w + front, x);
      assert w + front + [x] == w + xs;
    }
  }

  /** Starting empty, after k samples a window holds the last min(k, 7). */
  lemma FillFromEmpty<T>(xs: seq<T>)
    ensures Fill([], xs) == LastN(xs, SmoothN)
  {
    FillKeepsLastSamples([], xs);
    assert [] + xs == xs;
  }

  // ---------------------------------------------------------------- median

  ghost predicate IsSorted(s: seq<real>)
  {
    forall i, j :: 0 <= i < j < |s| ==> s[i] <= s[j]
  }

  /** x placed before the first element it does not exceed. */
  function Insert(x: real, s: seq<real>): (r: seq<real>)
    ensures |r| == |s| + 1
  {
    if s == [] || x <= s[0] then [x] + s
    else [s[0]] + Insert(x, s[1..])
  }

  /** The sorted copy that np.median works on (insertion sort). */
  function Sort(s: seq<real>): (r: seq<real>)
    ensures |r| == |s|
  {
    if s == [] then []
    else Insert(s[0], Sort(s[1..]))
  }

  /** A sorted sequence stays sorted under a head no larger than its first element. */
  lemma ConsSorted(h: real, t: seq<real>)
    requires IsSorted(t) && (t == [] || h <= t[0])
    ensures IsSorted([h] + t)
  {
    var r := [h] + t;
    forall i, j | 0 <= i < j < |r|
      ensures r[i] <= r[j]
    {
      assert r[j] == t[j - 1];
      if i > 0 {
        assert r[i] == t[i - 1];
      } else {
        assert t[0] <= t[j - 1];
      }
    }
  }

  /** Inserting into a sorted sequence keeps it sorted and adds exactly x. */
  lemma {:induction false} InsertSorted(x: real, s: seq<real>)
    requires IsSorted(s)
    ensures IsSorted(Insert(x, s))
    ensures multiset(Insert(x, s)) == multiset(s) + multiset{x}
    ensures Insert(x, s)[0] == x || (s != [] && Insert(x, s)[0] == s[0])
  {
    if s == [] || x <= s[0] {
      ConsSorted(x, s);
    } else {
      assert s == [s[0]] + s[1..];
      assert IsSorted(s[1..]) by {
        forall i, j | 0 <= i < j < |s| - 1
          ensures s[1..][i] <= s[1..][j]
        {
          assert s[1..][i] == s[i + 1] && s[1..][j] == s[j + 1];
        }
      }
      InsertSorted(x, s[1..]);
      var rest := Insert(x, s[1..]);
      assert Insert(x, s) == [s[0]] + rest;
      assert s[0] <= rest[0] by {
        if s[1..] != [] {
          assert s[1..][0] == s[1];
        }
      }
      ConsSorted(s[0], rest);
    }
  }

  /** The sorted copy is sorted and a permutation of the window. */
  lemma {:induction false} SortSorted(s: seq<real>)
    ensures IsSorted(Sort(s))
    ensures multiset(Sort(s)) == multiset(s)
  {
    if s != [] {
      assert s == [s[0]] + s[1..];
      SortSorted(s[1..]);
      InsertSorted(s[0], Sort(s[1..]));
    }
  }

  /** The middle of a sorted sequence: strip the smallest and the largest
      sample until one or two are left, and take the one or the mean of the
      two. */
  function MiddleOf(t: seq<real>): real
    requires |t| > 0
  {
    if |t| == 1 then t[0]
    else if |t| == 2 then (t[0] + t[1]) / 2.0
    else MiddleOf(t[1..|t| - 1])
  }

  /** np.median: the middle element of the sorted window when its length is
      odd, the mean of the two middle elements when it is even. */
  function Median(s: seq<real>): real
    requires |s| > 0
  {
    MiddleOf(Sort(s))
  }

  /** MiddleOf picks position |t| / 2 of an odd-length sequence and averages
      positions |t| / 2 - 1 and |t| / 2 of an even-length one. */
  lemma {:induction false} MiddleOfIsMiddle(t: seq<real>)
    requires |t| > 0
    ensures |t| % 2 == 1 ==> MiddleOf(t) == t[|t| / 2]
    ensures |t| % 2 == 0 ==> MiddleOf(t) == (t[|t| / 2 - 1] + t[|t| / 2]) / 2.0
  {
    if |t| > 2 {
      var n := |t|;
      var inner := t[1..n - 1];
      MiddleOfIsMiddle(inner);
      assert |inner| == n - 2 && |inner| / 2 == n / 2 - 1 && |inner| % 2 == n % 2;
      assert inner[n / 2 - 1] == t[n / 2];
      assert n % 2 == 0 ==> inner[n / 2 - 2] == t[n / 2 - 1];
    }
  }

  /** The median lies between the window's smallest and largest sample. */
  lemma MedianBounds(s: seq<real>)
    requires |s| > 0
    ensures exists lo :: lo in s && lo <= Median(s)
    ensures exists hi :: hi in s && Median(s) <= hi
  {
    var t := Sort(s);
    var n := |t|;
    SortSorted(s);
    MiddleOfIsMiddle(t);
    assert t[n / 2] in multiset(s) && t[(n - 1) / 2] in multiset(s);
    assert t[n / 2] in s && t[(n - 1) / 2] in s;
  }

  /** The occurrences of v in a sequence split between its two halves. */
  lemma CountSplit(t: seq<real>, k: nat, v: real)
    requires k <= |t|
    ensures multiset(t)[v] == multiset(t[..k])[v] + multiset(t[k..])[v]
  {
    assert t == t[..k] + t[k..];
  }

  lemma CountAbsent(s: seq<real>, v: real)
    requires forall i :: 0 <= i < |s| ==> s[i] != v
    ensures multiset(s)[v] == 0
  {
    assert v !in s;
  }

  lemma CountAtMostLength(s: seq<real>, v: real)
    ensures multiset(s)[v] <= |s|
  {
    assert multiset(s)[v] <= |multiset(s)|;
  }

  /** Every sample at or before a position holding less than v is not v. */
  lemma CountWhenBelow(t: seq<real>, v: real, k: nat)
    requires IsSorted(t) && k < |t|
    ensures t[k] < v ==> multiset(t)[v] <= |t| - 1 - k
  {
    CountSplit(t, k + 1, v);
    CountAtMostLength(t[k + 1..], v);
    if t[k] < v {
      CountAbsent(t[..k + 1], v);
    }
  }

  /** Every sample at or after a position holding more than v is not v. */
  lemma CountWhenAbove(t: seq<real>, v: real, k: nat)
    requires IsSorted(t) && k < |t|
    ensures t[k] > v ==> multiset(t)[v] <= k
  {
    CountSplit(t, k, v);
    CountAtMostLength(t[..k], v);
    if t[k] > v {
      CountAbsent(t[k..], v);
    }
  }

  /** In a sorted sequence, a value occurring more than k times and more than
      |t| - 1 - k times sits at position k. */
  lemma SortedMajorityAt(t: seq<real>, v: real, k: nat)
    requires IsSorted(t) && k < |t|
    requires multiset(t)[v] > |t| - 1 - k && multiset(t)[v] > k
    ensures t[k] == v
  {
    CountWhenBelow(t, v, k);
    CountWhenAbove(t, v, k);
  }

  /** Robustness to outliers: a value that fills more than half the window is
      its median, whatever the other samples are. */
  lemma MedianOfMajority(s: seq<real>, v: real)
    requires |s| > 0
    requires 2 * multiset(s)[v] > |s|
    ensures Median(s) == v
  {
    var t := Sort(s);
    var n := |t|;
    SortSorted(s);
    MiddleOfIsMiddle(t);
    SortedMajorityAt(t, v, n / 2);
    if n % 2 == 0 {
      SortedMajorityAt(t, v, n / 2 - 1);
    }
  }

  /** The worked case: one outlier among seven samples does not move the median. */
  lemma MedianIgnoresOneOutlier()
    ensures Median([10.0, 10.0, 10.0, 170.0, 10.0, 10.0, 10.0]) == 10.0
  {
    var s := [10.0, 10.0, 10.0, 170.0, 10.0, 10.0, 10.0];
    assert s == [10.0, 10.0, 10.0] + [170.0] + [10.0, 10.0, 10.0];
    MedianOfMajority(s, 10.0);
  }

  // --------------------------------------------------------- majority vote

  /** list.count: how many times x occurs in g. */
  function Count<T(==)>(g: seq<T>, x: T): (n: nat)
    ensures n <= |g|
    ensures n > 0 <==> x in g
  {
    if g == [] then 0 else (if g[0] == x then 1 else 0) + Count(g[1..], x)
  }

  lemma {:induction false} CountIsMultiplicity<T>(g: seq<T>, x: T)
    ensures Count(g, x) == multiset(g)[x]
  {
    if g != [] {
      CountIsMultiplicity(g[1..], x);
      assert g == [g[0]] + g[1..];
    }
  }

  /** max(set(g), key=g.count). Python visits the set in hash order, so which
      of several equally frequent labels wins is not fixed by the program; this
      model takes the one that occurs first in the window. */
  function Mode<T(==)>(g: seq<T>): (r: T)
    requires |g| > 0
    ensures r in g
  {
    ModeFrom(g, 1, g[0])
  }

  /** The most frequent of best and g[i..], preferring the earlier on ties. */
  function ModeFrom<T(==)>(g: seq<T>, i: nat, best: T): (r: T)
    requires i <= |g| && best in g
    ensures r in g
    ensures Count(g, best) <= Count(g, r)
    ensures forall j :: i <= j < |g| ==> Count(g, g[j]) <= Count(g, r)
    decreases |g| - i
  {
    if i == |g| then best
    else ModeFrom(g, i + 1, if Count(g, best) < Count(g, g[i]) then g[i] else best)
  }

  /** The vote returns a label of the window that occurs at least as often as
      any other. */
  lemma ModeIsMajority<T(!new)>(g: seq<T>)
    requires |g| > 0
    ensures Mode(g) in g
    ensures forall x :: multiset(g)[x] <= multiset(g)[Mode(g)]
  {
    var r := Mode(g);
    CountIsMultiplicity(g, r);
    forall x ensures multiset(g)[x] <= multiset(g)[r] {
      CountIsMultiplicity(g, x);
      if x in g {
        var j :| 0 <= j < |g| && g[j] == x;
      }
    }
  }

  /** Two different labels together occur at most once per window position. */
  lemma {:induction false} CountTwo<T>(g: seq<T>, a: T, b: T)
    requires a != b
    ensures Count(g, a) + Count(g, b) <= |g|
  {
    if g != [] {
      CountTwo(g[1..], a, b);
    }
  }

  /** A label held by more than half of the window wins the vote, whatever
      order Python visits the set in: every other label has a strictly
      smaller count, so no tie-break can pick it. */
  lemma MajorityWinsVote<T>(g: seq<T>, x: T)
    requires 2 * Count(g, x) > |g|
    ensures forall y :: y != x ==> Count(g, y) < Count(g, x)
    ensures Mode(g) == x
  {
    forall y | y != x
      ensures Count(g, y) < Count(g, x)
    {
      CountTwo(g, x, y);
    }
    var r := Mode(g);
    var j :| 0 <= j < |g| && g[j] == x;
    assert Count(g, x) <= Count(g, r);
    if r != x {
      CountTwo(g, x, r);
    }
  }
}
