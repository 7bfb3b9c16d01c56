/**
 The streak of a customer's purchase days: the `$reduce` of the repeat-purchase
 report, and what it means for the set of days.  A day is its number; two days
 are consecutive when their midnights are one day apart.
 */
module Streaks {
  import opened Wrappers

  datatype Streak = Streak(previous: Option<int>, current: nat, currentFrom: Option<int>,
                           longest: nat, from: Option<int>, to: Option<int>)

  const NO_STREAK := Streak(None, 0, None, 0, None, None)

  function Next(acc: Streak, day: int): Streak {
    var consecutive := acc.previous.Some? && day - acc.previous.value == 1;
    var length := if consecutive then acc.current + 1 else 1;
    var start := if consecutive then acc.currentFrom else Some(day);
    Streak(Some(day), length, start,
           if acc.longest >= length then acc.longest else length,
           if length > acc.longest then start else acc.from,
           if length > acc.longest then Some(day) else acc.to)
  }

  function Reduce(days: seq<int>): Streak {
    if days == [] then NO_STREAK else Next(Reduce(days[..|days| - 1]), days[|days| - 1])
  }

  /** Every day from `d`, for `n` days, is one of `days`. */
  predicate Covers(days: set<int>, d: int, n: nat) { forall k :: d <= k < d + n ==> k in days }

  /** The `n` days that end on `last`. */
  predicate EndsOn(days: set<int>, last: int, n: nat) { Covers(days, last - n + 1, n) }

  predicate Increasing(days: seq<int>) { forall i, j :: 0 <= i < j < |days| ==> days[i] < days[j] }

  function Elements(days: seq<int>): set<int> { set d | d in days }

  /** `from` and `to` are the earliest longest run of consecutive days. */
  ghost predicate IsLongest(days: set<int>, s: Streak) {
    && (forall d, n: nat :: Covers(days, d, n) ==> n <= s.longest)
    && (s.longest == 0 ==> s.from.None? && s.to.None?)
    && (s.longest > 0 ==>
          && s.from.Some? && s.to == Some(s.from.value + s.longest - 1)
          && Covers(days, s.from.value, s.longest)
          && forall d :: Covers(days, d, s.longest) ==> s.from.value <= d)
  }

  /** The run that ends on the last day seen. */
  ghost predicate IsCurrent(days: set<int>, last: int, s: Streak) {
    && s.previous == Some(last) && s.current >= 1 && s.currentFrom == Some(last - s.current + 1)
    && EndsOn(days, last, s.current)
    && forall n: nat :: EndsOn(days, last, n) ==> n <= s.current
  }

  /** A run with the new last day in it ends there. */
  lemma RunWithLast(before: set<int>, x: int, d: int, n: nat)
    requires forall k :: k in before ==> k < x
    ensures Covers(before + {x}, d, n) <==>
            Covers(before, d, n) || (n >= 1 && d + n - 1 == x && Covers(before, d, n - 1))
  {
    if Covers(before + {x}, d, n) && !Covers(before, d, n) {
      var k :| d <= k < d + n && k !in before;
      assert k == x;
      assert d <= x + 1 < d + n ==> x + 1 in before + {x};
    }
  }

  lemma NextCurrent(before: set<int>, last: int, x: int, s: Streak)
    requires last in before && (forall k :: k in before ==> k <= last) && last < x
    requires IsCurrent(before, last, s)
    ensures IsCurrent(before + {x}, x, Next(s, x))
  {
    var after := before + {x};
    var t := Next(s, x);
    RunWithLast(before, x, x - t.current + 1, t.current);
    forall n: nat | EndsOn(after, x, n) ensures n <= t.current {
      RunWithLast(before, x, x - n + 1, n);
      if n >= 2 {
        assert x - 1 in after;
        assert EndsOn(before, last, n - 1);
      }
    }
  }

  lemma NextLongest(before: set<int>, x: int, s: Streak)
    requires (forall k :: k in before ==> k < x) && IsLongest(before, s)
    requires IsCurrent(before + {x}, x, Next(s, x))
    ensures IsLongest(before + {x}, Next(s, x))
  {
    var after := before + {x};
    var t := Next(s, x);
    forall d, n: nat | Covers(after, d, n) ensures n <= t.longest {
      RunWithLast(before, x, d, n);
      if !Covers(before, d, n) { assert EndsOn(after, x, n); }
    }
    forall d | Covers(after, d, t.longest) ensures t.from.Some? && t.from.value <= d {
      RunWithLast(before, x, d, t.longest);
      if s.longest > 0 { assert s.to.value in before; }
    }
  }

  lemma Lacks(days: set<int>, d: int, n: nat, k: int)
    requires d <= k < d + n && k !in days
    ensures !Covers(days, d, n)
  {
  }

  lemma FirstDay(x: int)
    ensures IsLongest({}, NO_STREAK) && IsCurrent({x}, x, Next(NO_STREAK, x))
  {
    forall d, n: nat | n > 0 ensures !Covers({}, d, n) { Lacks({}, d, n, d); }
    forall n: nat | n > 1 ensures !EndsOn({x}, x, n) { Lacks({x}, x - n + 1, n, x - 1); }
    assert EndsOn({x}, x, 1);
  }

  lemma Grows(days: seq<int>)
    requires Increasing(days) && days != []
    ensures var before, x := days[..|days| - 1], days[|days| - 1];
      && Increasing(before) && Elements(days) == Elements(before) + {x}
      && (forall k :: k in Elements(before) ==> k < x)
      && (before != [] ==>
            && before[|before| - 1] in Elements(before)
            && forall k :: k in Elements(before) ==> k <= before[|before| - 1])
  {
  }

  lemma {:induction false} ReduceMeans(days: seq<int>)
    requires Increasing(days)
    ensures IsLongest(Elements(days), Reduce(days))
    ensures days != [] ==> IsCurrent(Elements(days), days[|days| - 1], Reduce(days))
  {
    if days == [] {
      FirstDay(0);
      assert Elements(days) == {};
    } else {
      var before, x := days[..|days| - 1], days[|days| - 1];
      Grows(days);
      ReduceMeans(before);
      if before == [] { FirstDay(x); assert Elements(before) == {} && Elements(days) == {x}; }
      else { NextCurrent(Elements(before), before[|before| - 1], x, Reduce(before)); }
      NextLongest(Elements(before), x, Reduce(before));
    }
  }

  /** `$sort` on the day, then `$push`: the days in increasing order. */
  ghost predicate Lists(days: seq<int>, all: set<int>) { Increasing(days) && Elements(days) == all }

  lemma DropLast(days: seq<int>)
    requires Increasing(days) && days != []
    ensures var n := |days| - 1;
      days == days[..n] + [days[n]] && Elements(days[..n]) == Elements(days) - {days[n]} && Increasing(days[..n])
  {
  }

  lemma SameLast(a: seq<int>, b: seq<int>)
    requires Increasing(a) && Increasing(b) && Elements(a) == Elements(b) && a != [] && b != []
    ensures a[|a| - 1] == b[|b| - 1]
  {
    assert a[|a| - 1] in Elements(b) && b[|b| - 1] in Elements(a);
  }

  /** There is only one such list, so the report's streak is a function of the
      customer's days. */
  lemma {:induction false} ListIsUnique(a: seq<int>, b: seq<int>)
    requires Increasing(a) && Increasing(b) && Elements(a) == Elements(b)
    ensures a == b
  {
    if a != [] { assert a[0] in Elements(a); }
    if b != [] { assert b[0] in Elements(b); }
    if a != [] && b != [] {
      SameLast(a, b);
      DropLast(a);
      DropLast(b);
      ListIsUnique(a[..|a| - 1], b[..|b| - 1]);
    }
  }

  /** Main result: whatever the set of purchase days, the fold over their sorted
      list finds the longest run of consecutive days, and the earliest one. */
  lemma StreakIsLongestRun(all: set<int>, days: seq<int>)
    requires Lists(days, all)
    ensures var s := Reduce(days);
      && (forall d, n: nat :: Covers(all, d, n) ==> n <= s.longest)
      && (all != {} ==>
            && s.longest >= 1 && s.from.Some? && s.to.Some?
            && s.to.value - s.from.value == s.longest - 1
            && Covers(all, s.from.value, s.longest)
            && forall d :: Covers(all, d, s.longest) ==> s.from.value <= d)
  {
    ReduceMeans(days);
    if d :| d in all { assert Covers(all, d, 1); }
  }
}
