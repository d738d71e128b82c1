/** Counting events that come in bounded windows of time. */
module Counting {
  function Interval(a: nat, n: nat): (s: set<nat>)
    ensures forall x :: x in s <==> a <= x < a + n
    ensures |s| == n
  {
    if n == 0 then {} else Interval(a, n - 1) + {a + n - 1}
  }

  lemma SubsetSize(s: set<nat>, t: set<nat>)
    requires s <= t
    ensures |s| <= |t|
  {
    if s != {} {
      var x :| x in s;
      SubsetSize(s - {x}, t - {x});
      assert |s| == |s - {x}| + 1 && |t| == |t - {x}| + 1;
    }
  }

  lemma Smallest(s: set<nat>) returns (x: nat)
    requires s != {}
    ensures x in s && forall y :: y in s ==> x <= y
  {
    var y :| y in s;
    var others := s - {y};
    assert s == others + {y};
    if others == {} {
      x := y;
    } else {
      var z := Smallest(others);
      x := if y < z then y else z;
    }
  }

  /** Something that was let pass `at` some time, in the window begun at `start`. */
  datatype Mark = Mark(at: nat, start: nat)

  /** Windows last `len` and do not overlap, times do not run backwards, and a window lets at most `most` pass. */
  ghost predicate Windowed(w: seq<Mark>, len: nat, most: nat) {
    && (forall i :: 0 <= i < |w| ==> w[i].start <= w[i].at < w[i].start + len)
    && (forall i, j :: 0 <= i <= j < |w| ==> w[i].at <= w[j].at && Follows(w[i], w[j], len))
    && (forall i, j :: 0 <= i && j == i + most && j < |w| ==> w[i].start != w[j].start)
  }

  /** The window of `b` is that of `a`, or begins when it is over. */
  predicate Follows(a: Mark, b: Mark, len: nat) {
    b.start == a.start || b.start >= a.start + len
  }

  /** `most * m` further on, `m` windows are over. */
  lemma {:induction false} WindowsPass(w: seq<Mark>, len: nat, most: nat, i: nat, m: nat)
    requires Windowed(w, len, most) && i + most * m < |w|
    ensures w[i + most * m].start >= w[i].start + len * m
  {
    if m > 0 {
      MulStep(most, m);
      MulStep(len, m);
      WindowsPass(w, len, most, i, m - 1);
      var j := i + most * (m - 1);
      assert Follows(w[j], w[j + most], len) && w[j].start != w[j + most].start;
    }
  }

  lemma MulStep(a: nat, m: nat)
    requires m > 0
    ensures a * m == a * (m - 1) + a && a * (m - 1) >= 0
  {}

  function Between(w: seq<Mark>, lo: nat, hi: nat): set<nat> {
    set i: nat | i < |w| && lo <= w[i].at <= hi
  }

  lemma SpanIsShort(len: nat, span: nat)
    requires len > 0
    ensures len * (span / len + 2) == len * (span / len + 1) + len && len * (span / len + 1) > span
  {
    var q, r := span / len, span % len;
    assert span == len * q + r;
    MulStep(len, q + 1);
    MulStep(len, q + 2);
  }

  lemma TooLateFor(w: seq<Mark>, len: nat, most: nat, i: nat, k: nat, span: nat)
    requires Windowed(w, len, most) && len > 0
    requires i + most * (span / len + 2) <= k < |w|
    ensures w[k].at > w[i].at + span
  {
    var m := span / len + 2;
    WindowsPass(w, len, most, i, m);
    SpanIsShort(len, span);
    assert w[i + most * m].at <= w[k].at;
  }

  /** A closed interval of `span` meets at most `span / len + 2` windows. */
  lemma WindowBound(w: seq<Mark>, len: nat, most: nat, lo: nat, span: nat)
    requires Windowed(w, len, most) && len > 0
    ensures |Between(w, lo, lo + span)| <= most * (span / len + 2)
  {
    var s := Between(w, lo, lo + span);
    var bound := most * (span / len + 2);
    if s != {} {
      var i := Smallest(s);
      forall k | k in s ensures k < i + bound {
        if k >= i + bound {
          TooLateFor(w, len, most, i, k, span);
        }
      }
      FitsInterval(s, i, bound);
    }
  }

  lemma FitsInterval(s: set<nat>, i: nat, n: nat)
    requires forall k :: k in s ==> i <= k < i + n
    ensures |s| <= n
  {
    SubsetSize(s, Interval(i, n));
  }
}
