/**
 * Check-in times on a calendar of fixed 24-hour days. The source builds
 * `new Date(y, m, d + offset, hour, 0, 0)` in local time; here day `d` starts
 * at `d * DayMs` and the check-in at hour `h` of that day is
 * `d * DayMs + h * HourMs`, with the day of `now` being `now / DayMs`.
 */
module Calendar {
  import opened Wrappers
  import opened Types
  import Sorting
  import Lists

  function DayOf(now: int): int {
    now / DayMs
  }

  /** `DayMs` and `HourMs` written out, so that the solver sees linear arithmetic. */
  function CheckinAt(day: int, hour: int): int {
    day * 86400000 + hour * 3600000
  }

  predicate Ascending(s: seq<int>) {
    forall i, j :: 0 <= i < j < |s| ==> s[i] <= s[j]
  }

  predicate ValidHours(hours: seq<int>) {
    forall i :: 0 <= i < |hours| ==> 0 <= hours[i] < 24
  }

  /** `[...checkinTimes].sort((a, b) => a - b)`. */
  function SortHours(hours: seq<int>): (r: seq<int>)
    ensures Ascending(r) && multiset(r) == multiset(hours) && |r| == |hours|
  {
    var r := Sorting.SortBy(hours, h => h);
    assert Sorting.SortedBy(r, h => h);
    r
  }

  lemma SortedHoursValid(hours: seq<int>)
    requires ValidHours(hours)
    ensures ValidHours(SortHours(hours))
  {
    var r := SortHours(hours);
    forall i | 0 <= i < |r| ensures 0 <= r[i] < 24 {
      assert r[i] in multiset(hours);
    }
  }

  /** The check-ins of one day, in the order of `hours`. */
  function DayCheckins(day: int, hours: seq<int>): (r: seq<int>)
    ensures |r| == |hours|
    ensures forall i :: 0 <= i < |hours| ==> r[i] == CheckinAt(day, hours[i])
  {
    if hours == [] then [] else [CheckinAt(day, hours[0])] + DayCheckins(day, hours[1..])
  }

  /** The check-ins of the days `DayOf(now) + o` for each offset `o`, day after day. */
  function Checkins(now: int, hours: seq<int>, offsets: seq<int>): (r: seq<int>)
    ensures |r| == |offsets| * |hours|
  {
    if offsets == [] then []
    else DayCheckins(DayOf(now) + offsets[0], hours) + Checkins(now, hours, offsets[1..])
  }

  lemma {:induction false} CheckinsContains(now: int, hours: seq<int>, offsets: seq<int>, i: nat, j: nat)
    requires i < |offsets| && j < |hours|
    ensures CheckinAt(DayOf(now) + offsets[i], hours[j]) in Checkins(now, hours, offsets)
  {
    if i == 0 {
      assert DayCheckins(DayOf(now) + offsets[0], hours)[j] == CheckinAt(DayOf(now) + offsets[0], hours[j]);
    } else {
      CheckinsContains(now, hours, offsets[1..], i - 1, j);
    }
  }

  /** The first millisecond of day `day`. */
  function DayStart(day: int): int {
    day * 86400000
  }

  /** On one day, the check-ins of valid, sorted hours lie in that day, in ascending order. */
  lemma DayCheckinsAscending(day: int, hours: seq<int>)
    requires Ascending(hours) && ValidHours(hours)
    ensures Ascending(DayCheckins(day, hours))
    ensures forall x :: x in DayCheckins(day, hours) ==> DayStart(day) <= x < DayStart(day + 1)
  {
  }

  lemma AscendingConcat(a: seq<int>, b: seq<int>)
    requires Ascending(a) && Ascending(b)
    requires forall x, y :: x in a && y in b ==> x <= y
    ensures Ascending(a + b)
  {
    forall i, j | 0 <= i < j < |a + b| ensures (a + b)[i] <= (a + b)[j] {
      if j < |a| {
        assert (a + b)[i] == a[i] && (a + b)[j] == a[j];
      } else if i >= |a| {
        assert (a + b)[i] == b[i - |a|] && (a + b)[j] == b[j - |a|];
      } else {
        assert (a + b)[i] in a && (a + b)[j] in b;
      }
    }
  }

  predicate Increasing(offsets: seq<int>) {
    forall i, j :: 0 <= i < j < |offsets| ==> offsets[i] < offsets[j]
  }

  lemma IncreasingTail(offsets: seq<int>)
    requires offsets != [] && Increasing(offsets)
    ensures Increasing(offsets[1..])
    ensures forall i :: 0 <= i < |offsets[1..]| ==> offsets[0] + 1 <= offsets[1..][i]
  {
    var tail := offsets[1..];
    forall i, j | 0 <= i < j < |tail| ensures tail[i] < tail[j] {
      assert tail[i] == offsets[i + 1] && tail[j] == offsets[j + 1];
    }
    forall i | 0 <= i < |tail| ensures offsets[0] + 1 <= tail[i] {
      assert tail[i] == offsets[i + 1];
    }
  }

  /** When every offset is at least `b`, no check-in comes before day `DayOf(now) + b`. */
  lemma {:induction false} CheckinsFrom(now: int, hours: seq<int>, offsets: seq<int>, b: int)
    requires ValidHours(hours)
    requires forall i :: 0 <= i < |offsets| ==> b <= offsets[i]
    ensures forall x :: x in Checkins(now, hours, offsets) ==> DayStart(DayOf(now) + b) <= x
  {
    if offsets != [] {
      var day := DayOf(now) + offsets[0];
      var first := DayCheckins(day, hours);
      var tail := offsets[1..];
      forall i | 0 <= i < |tail| ensures b <= tail[i] {
        assert tail[i] == offsets[i + 1];
      }
      CheckinsFrom(now, hours, tail, b);
      assert DayStart(DayOf(now) + b) <= DayStart(day);
      forall x | x in first ensures DayStart(day) <= x {
        var j :| 0 <= j < |first| && first[j] == x;
        assert x == CheckinAt(day, hours[j]);
      }
      assert Checkins(now, hours, offsets) == first + Checkins(now, hours, tail);
    }
  }

  /** Consecutive increasing days of valid, sorted hours give an ascending list. */
  lemma {:induction false} CheckinsAscending(now: int, hours: seq<int>, offsets: seq<int>)
    requires Ascending(hours) && ValidHours(hours)
    requires Increasing(offsets)
    ensures Ascending(Checkins(now, hours, offsets))
    ensures offsets != [] ==>
      forall x :: x in Checkins(now, hours, offsets) ==> DayStart(DayOf(now) + offsets[0]) <= x
  {
    if offsets != [] {
      var day := DayOf(now) + offsets[0];
      var first := DayCheckins(day, hours);
      var tail := offsets[1..];
      var rest := Checkins(now, hours, tail);
      DayCheckinsAscending(day, hours);
      IncreasingTail(offsets);
      CheckinsAscending(now, hours, tail);
      CheckinsFrom(now, hours, tail, offsets[0] + 1);
      forall x, y | x in first && y in rest ensures x <= y {
        assert x < DayStart(day + 1) <= y;
      }
      AscendingConcat(first, rest);
      assert Checkins(now, hours, offsets) == first + rest;
      forall i | 0 <= i < |offsets| ensures offsets[0] <= offsets[i] {
        if i > 0 {
          assert offsets[0] < offsets[i];
        }
      }
      CheckinsFrom(now, hours, offsets, offsets[0]);
    }
  }

  /** `s.find(x => x > t)`. */
  function FirstAbove(s: seq<int>, t: int): (r: Option<int>)
    ensures r.Some? ==> r.value in s && r.value > t
    ensures r.None? <==> forall x :: x in s ==> x <= t
  {
    if s == [] then None
    else if s[0] > t then Some(s[0])
    else
      assert s == [s[0]] + s[1..];
      FirstAbove(s[1..], t)
  }

  /** In an ascending list, the first element above `t` is the least of them. */
  lemma {:induction false} FirstAboveIsLeast(s: seq<int>, t: int)
    requires Ascending(s)
    ensures FirstAbove(s, t).Some? ==> forall x :: x in s && x > t ==> FirstAbove(s, t).value <= x
  {
    if s != [] && s[0] <= t {
      FirstAboveIsLeast(s[1..], t);
      assert forall x :: x in s && x > t ==> x in s[1..];
    }
  }

  /** `s.find(x => x < t)`. */
  function FirstBelow(s: seq<int>, t: int): (r: Option<int>)
    ensures r.Some? ==> r.value in s && r.value < t
    ensures r.None? <==> forall x :: x in s ==> x >= t
  {
    if s == [] then None
    else if s[0] < t then Some(s[0])
    else
      assert s == [s[0]] + s[1..];
      FirstBelow(s[1..], t)
  }

  predicate Descending(s: seq<int>) {
    forall i, j :: 0 <= i < j < |s| ==> s[i] >= s[j]
  }

  /** In a descending list, the first element below `t` is the greatest of them. */
  lemma {:induction false} FirstBelowIsGreatest(s: seq<int>, t: int)
    requires Descending(s)
    ensures FirstBelow(s, t).Some? ==> forall x :: x in s && x < t ==> x <= FirstBelow(s, t).value
  {
    if s != [] && s[0] >= t {
      FirstBelowIsGreatest(s[1..], t);
      assert forall x :: x in s && x < t ==> x in s[1..];
    }
  }

  /** Sorting by the negated value gives a descending list. */
  function SortDescending(s: seq<int>): (r: seq<int>)
    ensures Descending(r) && multiset(r) == multiset(s) && |r| == |s|
  {
    var r := Sorting.SortBy(s, x => -x);
    assert Sorting.SortedBy(r, x => -x);
    r
  }

  function SortAscending(s: seq<int>): (r: seq<int>)
    ensures Ascending(r) && multiset(r) == multiset(s) && |r| == |s|
  {
    SortHours(s)
  }

  lemma {:induction false} CheckinsSnoc(now: int, hours: seq<int>, offsets: seq<int>, x: int)
    ensures Checkins(now, hours, offsets + [x]) == Checkins(now, hours, offsets) + DayCheckins(DayOf(now) + x, hours)
  {
    if offsets == [] {
      assert Checkins(now, hours, [x][1..]) == [];
    } else {
      var t := offsets + [x];
      var first := DayCheckins(DayOf(now) + offsets[0], hours);
      var last := DayCheckins(DayOf(now) + x, hours);
      assert t[0] == offsets[0] && t[1..] == offsets[1..] + [x];
      CheckinsSnoc(now, hours, offsets[1..], x);
      Lists.ConcatAssoc(first, Checkins(now, hours, offsets[1..]), last);
    }
  }

  /** The candidate dates pushed day by day, each day in hour order. */
  method CollectCheckins(now: int, hours: seq<int>, offsets: seq<int>) returns (candidates: seq<int>)
    ensures candidates == Checkins(now, hours, offsets)
  {
    candidates := [];
    var d := 0;
    while d < |offsets|
      invariant 0 <= d <= |offsets|
      invariant candidates == Checkins(now, hours, offsets[..d])
    {
      CheckinsSnoc(now, hours, offsets[..d], offsets[d]);
      assert offsets[..d + 1] == offsets[..d] + [offsets[d]];
      candidates := AppendDay(candidates, DayOf(now) + offsets[d], hours);
      d := d + 1;
    }
    assert offsets[..d] == offsets;
  }

  /** One day's check-ins pushed in hour order. */
  method AppendDay(candidates: seq<int>, day: int, hours: seq<int>) returns (r: seq<int>)
    ensures r == candidates + DayCheckins(day, hours)
  {
    r := candidates;
    var j := 0;
    while j < |hours|
      invariant 0 <= j <= |hours|
      invariant r == candidates + DayCheckins(day, hours[..j])
    {
      r := r + [CheckinAt(day, hours[j])];
      assert DayCheckins(day, hours[..j + 1]) == DayCheckins(day, hours[..j]) + [CheckinAt(day, hours[j])];
      j := j + 1;
    }
    assert hours[..j] == hours;
  }
}
