/** Cross-series alignment and the smooth-line filter of the panel's renderer:
    the `required_times` axis every series is zero-filled against, and the
    removal of zero-valued points when `lines_smooth` is on. */
module Alignment {
  import opened Common
  import opened TimeSeries

  predicate Ascending(s: seq<int>) {
    forall i, j :: 0 <= i < j < |s| ==> s[i] <= s[j]
  }

  predicate StrictlyAscending(s: seq<int>) {
    forall i, j :: 0 <= i < j < |s| ==> s[i] < s[j]
  }

  /** `Array.prototype.concat.apply([], lists)`: the lists one after another. */
  function Flatten(lists: seq<seq<int>>): (r: seq<int>)
    ensures forall x :: x in r <==> exists i :: 0 <= i < |lists| && x in lists[i]
  {
    if lists == [] then []
    else
      var init := lists[..|lists| - 1];
      var r := Flatten(init) + lists[|lists| - 1];
      assert forall i :: 0 <= i < |init| ==> init[i] == lists[i];
      r
  }

  /** Inserts `x` into an ascending sequence. */
  function Insert(x: int, s: seq<int>): (r: seq<int>)
    requires Ascending(s)
    ensures Ascending(r)
    ensures multiset(r) == multiset(s) + multiset{x}
    ensures |r| == |s| + 1 && (r[0] == x || (s != [] && r[0] == s[0]))
  {
    if s == [] then [x]
    else if x <= s[0] then [x] + s
    else
      var rest := Insert(x, s[1..]);
      assert s == [s[0]] + s[1..];
      assert s[0] <= rest[0];
      [s[0]] + rest
  }

  /** `times.sort(function (a, b) { return a - b; })`: ascending numeric order.
      The comment beside it in the source says "decending", the comparator sorts
      ascending. */
  function SortAscending(s: seq<int>): (r: seq<int>)
    ensures Ascending(r)
    ensures multiset(r) == multiset(s)
  {
    if s == [] then []
    else
      assert s == s[..|s| - 1] + [s[|s| - 1]];
      Insert(s[|s| - 1], SortAscending(s[..|s| - 1]))
  }

  /** `_.uniq(s, true)`: drops every element equal to the element before it. */
  function DropAdjacentDuplicates(s: seq<int>): (r: seq<int>)
    ensures forall x :: x in r <==> x in s
    ensures Ascending(s) ==> StrictlyAscending(r)
    ensures |r| <= |s|
  {
    if |s| <= 1 then s
    else
      var init := s[..|s| - 1];
      var last := s[|s| - 1];
      assert s == init + [last];
      var r := DropAdjacentDuplicates(init);
      if last == init[|init| - 1] then r
      else
        AppendAboveStaysStrict(init, r, last);
        r + [last]
  }

  /** The step of DropAdjacentDuplicates that keeps a new last element. */
  lemma AppendAboveStaysStrict(init: seq<int>, r: seq<int>, last: int)
    requires |init| > 0 && last != init[|init| - 1]
    requires forall x :: x in r ==> x in init
    requires Ascending(init) ==> StrictlyAscending(r)
    ensures Ascending(init + [last]) ==> StrictlyAscending(r + [last])
  {
    var s := init + [last];
    if Ascending(s) {
      assert Ascending(init) by {
        forall i, j | 0 <= i < j < |init| ensures init[i] <= init[j] {
          assert s[i] == init[i] && s[j] == init[j];
        }
      }
      forall y | y in r ensures y < last {
        var k :| 0 <= k < |init| && init[k] == y;
        assert s[k] <= s[|init| - 1] <= s[|init|];
      }
      var t := r + [last];
      forall i, j | 0 <= i < j < |t| ensures t[i] < t[j] {
        assert t[i] == r[i] && r[i] in r;
      }
    }
  }

  /** `required_times` (module.js, render_panel): empty unless there are at least
      two series; otherwise the union of every series' `getOrderedTimes()`,
      in ascending order and without repeats. */
  function RequiredTimes(times: seq<seq<int>>): (r: seq<int>)
    ensures |times| <= 1 ==> r == []
    ensures |times| > 1 ==> StrictlyAscending(r)
    ensures |times| > 1 ==> forall x :: x in r <==> exists i :: 0 <= i < |times| && x in times[i]
  {
    if |times| > 1 then
      var all := Flatten(times);
      var sorted := SortAscending(all);
      assert forall x :: x in sorted <==> x in all by {
        assert forall x :: x in sorted <==> x in multiset(sorted);
        assert forall x :: x in all <==> x in multiset(all);
      }
      DropAdjacentDuplicates(sorted)
    else []
  }

  /** Whether a plotted value is `=== 0`. Only the number zero is; a string "0"
      or an undefined value is not. */
  predicate IsZero(p: Pair) {
    p.value == Num(0)
  }

  /** The `lines_smooth` filter: the pairs whose value is not `=== 0`, in order. */
  function Smooth(points: seq<Pair>): seq<Pair> {
    if points == [] then []
    else
      var last := points[|points| - 1];
      Smooth(points[..|points| - 1]) + (if IsZero(last) then [] else [last])
  }

  /** `r` can be obtained from `s` by deleting elements, keeping the order. */
  predicate IsSubsequence<T(==)>(r: seq<T>, s: seq<T>)
    decreases |s|
  {
    if r == [] then true
    else if s == [] then false
    else
      (r[|r| - 1] == s[|s| - 1] && IsSubsequence(r[..|r| - 1], s[..|s| - 1]))
      || IsSubsequence(r, s[..|s| - 1])
  }

  /** Exactly the non-zero points survive. */
  lemma {:induction false} SmoothKeepsExactlyNonZero(points: seq<Pair>)
    ensures forall p :: p in Smooth(points) <==> p in points && !IsZero(p)
  {
    if points != [] {
      var init := points[..|points| - 1];
      SmoothKeepsExactlyNonZero(init);
      assert points == init + [points[|points| - 1]];
    }
  }

  /** The survivors keep their relative order: the output is a subsequence. */
  lemma {:induction false} SmoothIsSubsequence(points: seq<Pair>)
    ensures IsSubsequence(Smooth(points), points)
    ensures |Smooth(points)| <= |points|
  {
    if points != [] {
      var init := points[..|points| - 1];
      SmoothIsSubsequence(init);
      var r := Smooth(points);
      assert points[..|points| - 1] == init;
      if !IsZero(points[|points| - 1]) {
        assert r[..|r| - 1] == Smooth(init);
        assert r[|r| - 1] == points[|points| - 1];
      } else {
        assert r == Smooth(init);
      }
    }
  }

  /** Filtering a concatenation filters each part: what happens to one point
      does not depend on its neighbours. */
  lemma {:induction false} SmoothDistributes(a: seq<Pair>, b: seq<Pair>)
    ensures Smooth(a + b) == Smooth(a) + Smooth(b)
    decreases |b|
  {
    if b == [] {
      assert a + b == a;
    } else {
      var binit := b[..|b| - 1];
      SmoothDistributes(a, binit);
      assert (a + b)[..|a + b| - 1] == a + binit;
    }
  }

  /** A second pass removes nothing more. */
  lemma {:induction false} SmoothIdempotent(points: seq<Pair>)
    ensures Smooth(Smooth(points)) == Smooth(points)
  {
    if points != [] {
      var init := points[..|points| - 1];
      var last := points[|points| - 1];
      SmoothIdempotent(init);
      SmoothDistributes(Smooth(init), if IsZero(last) then [] else [last]);
      if !IsZero(last) {
        assert Smooth([last]) == Smooth([]) + [last] by {
          assert [last][..0] == [];
        }
      } else {
        assert Smooth(init) + [] == Smooth(init);
      }
    }
  }

  /** The inner loop of the `lines_smooth` pass: builds `new_data` with `push`. */
  method SmoothPoints(points: seq<Pair>) returns (kept: seq<Pair>)
    ensures kept == Smooth(points)
  {
    kept := [];
    var j := 0;
    while j < |points|
      invariant 0 <= j <= |points|
      invariant kept == Smooth(points[..j])
    {
      assert points[..j + 1][..j] == points[..j];
      if points[j].value != Num(0) {
        kept := kept + [points[j]];
      }
      j := j + 1;
    }
    assert points[..j] == points;
  }
}
