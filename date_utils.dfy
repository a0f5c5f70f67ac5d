/** Date helpers of src/lib/dateUtils.ts: the interval-conflict test used by the
    scheduling form, minute arithmetic on instants, and the 07:00–20:00 slot grid of
    the weekly calendar. */
module DateUtils {
  import opened Types

  // ---------------------------------------------------------------- conflicts

  /** Two bookings clash when they overlap strictly, or share their start, or share
      their end (the last two even for zero-length bookings). */
  predicate CheckTimeConflict(newStart: Timestamp, newEnd: Timestamp,
                              existingStart: Timestamp, existingEnd: Timestamp)
  {
    (newStart < existingEnd && newEnd > existingStart)
    || newStart == existingStart
    || newEnd == existingEnd
  }

  lemma OverlapConflicts(newStart: Timestamp, newEnd: Timestamp,
                         existingStart: Timestamp, existingEnd: Timestamp)
    requires newStart < existingEnd && newEnd > existingStart
    ensures CheckTimeConflict(newStart, newEnd, existingStart, existingEnd)
  {
  }

  lemma SharedEndpointConflicts(newStart: Timestamp, newEnd: Timestamp,
                                existingStart: Timestamp, existingEnd: Timestamp)
    requires newStart == existingStart || newEnd == existingEnd
    ensures CheckTimeConflict(newStart, newEnd, existingStart, existingEnd)
  {
  }

  lemma ConflictSymmetric(newStart: Timestamp, newEnd: Timestamp,
                          existingStart: Timestamp, existingEnd: Timestamp)
    ensures CheckTimeConflict(newStart, newEnd, existingStart, existingEnd)
            == CheckTimeConflict(existingStart, existingEnd, newStart, newEnd)
  {
  }

  /** A booking that starts exactly when another ends (or ends exactly when it starts)
      does not clash, as long as both last a positive time. */
  lemma BackToBackNoConflict(newStart: Timestamp, newEnd: Timestamp,
                             existingStart: Timestamp, existingEnd: Timestamp)
    requires newStart < newEnd && existingStart < existingEnd
    requires newStart == existingEnd || newEnd == existingStart
    ensures !CheckTimeConflict(newStart, newEnd, existingStart, existingEnd)
  {
  }

  /** `t` lies in the half-open interval [start, end). */
  predicate Within(t: Timestamp, start: Timestamp, end: Timestamp) {
    start <= t < end
  }

  /** For bookings of positive length the test is exactly the usual half-open
      interval overlap: the shared-endpoint clauses add nothing. */
  lemma ConflictIsOverlap(newStart: Timestamp, newEnd: Timestamp,
                          existingStart: Timestamp, existingEnd: Timestamp)
    requires newStart < newEnd && existingStart < existingEnd
    ensures CheckTimeConflict(newStart, newEnd, existingStart, existingEnd)
            <==> (exists t :: Within(t, newStart, newEnd) && Within(t, existingStart, existingEnd))
  {
    var t := if newStart < existingStart then existingStart else newStart;
    if CheckTimeConflict(newStart, newEnd, existingStart, existingEnd) {
      assert Within(t, newStart, newEnd) && Within(t, existingStart, existingEnd);
    }
  }

  /** Zero-length bookings clash exactly when they sit at the same instant. */
  lemma ZeroLengthConflict(s: Timestamp, t: Timestamp)
    ensures CheckTimeConflict(s, s, t, t) <==> s == t
  {
  }

  // ---------------------------------------------------------------- minutes

  function AddMinutesToDate(date: Timestamp, minutes: int): (r: Timestamp)
    ensures r - date == minutes * MsPerMinute
  {
    date + minutes * MsPerMinute
  }

  /** Shifting by `a` then `b` minutes is shifting by `a + b`; shifting back undoes a
      shift, and different shifts of one date give different dates. */
  lemma AddMinutesCompose(date: Timestamp, a: int, b: int)
    ensures AddMinutesToDate(AddMinutesToDate(date, a), b) == AddMinutesToDate(date, a + b)
    ensures AddMinutesToDate(AddMinutesToDate(date, a), -a) == date
    ensures AddMinutesToDate(date, a) == AddMinutesToDate(date, b) <==> a == b
  {
  }

  lemma AddMinutesMonotone(date: Timestamp, minutes: int)
    ensures minutes > 0 <==> AddMinutesToDate(date, minutes) > date
    ensures minutes == 0 <==> AddMinutesToDate(date, minutes) == date
  {
  }

  // ---------------------------------------------------------------- time slots

  /** Slots are minutes since midnight: 07:00 is 420 and 20:00 is 1200. */
  const FirstHour: int := 7
  const LastHour: int := 20

  /** Slots of hour `h` from minute `m` on: h:m, h:(m+iv), … while the minute is below
      60 — the inner loop of the source. */
  function RowFrom(h: int, m: int, iv: int): seq<int>
    requires iv > 0
    decreases 60 - m
  {
    if m >= 60 then [] else [h * 60 + m] + RowFrom(h, m + iv, iv)
  }

  /** Number of slots in a full hour. */
  function PerHour(iv: int): nat
    requires iv > 0
  {
    |RowFrom(0, 0, iv)|
  }

  /** Slots of one hour: a full row before 20:00, and 20:00 alone in the last hour. */
  function HourSlots(h: int, iv: int): seq<int>
    requires iv > 0
  {
    if h == LastHour then [h * 60] else RowFrom(h, 0, iv)
  }

  /** Slots of the hours 7 .. h-1. */
  function SlotsBefore(h: int, iv: int): seq<int>
    requires iv > 0
    decreases h
  {
    if h <= FirstHour then [] else SlotsBefore(h - 1, iv) + HourSlots(h - 1, iv)
  }

  function Slots(iv: int): seq<int>
    requires iv > 0
  {
    SlotsBefore(LastHour + 1, iv)
  }

  ghost predicate StrictlyIncreasing(s: seq<int>) {
    forall i, j :: 0 <= i < j < |s| ==> s[i] < s[j]
  }

  function Times(k: nat, iv: int): int {
    k * iv
  }

  /** `x` is one of 0, iv, 2·iv, … */
  ghost predicate OnGrid(x: int, iv: int) {
    exists k: nat :: x == Times(k, iv)
  }

  lemma GridStep(m: int, iv: int)
    requires OnGrid(m, iv)
    ensures OnGrid(m + iv, iv)
  {
    var k: nat :| m == Times(k, iv);
    assert m + iv == Times(k + 1, iv);
  }

  lemma {:induction false} RowLength(h: int, m: int, iv: int)
    requires iv > 0
    ensures |RowFrom(h, m, iv)| == |RowFrom(0, m, iv)|
    decreases 60 - m
  {
    if m < 60 {
      RowLength(h, m + iv, iv);
    }
  }

  /** A row lies inside its hour, increases, and (starting on the grid) stays on it. */
  lemma {:induction false} RowShape(h: int, m: int, iv: int)
    requires iv > 0 && 0 <= m
    ensures StrictlyIncreasing(RowFrom(h, m, iv))
    ensures forall j :: 0 <= j < |RowFrom(h, m, iv)| ==>
              h * 60 + m <= RowFrom(h, m, iv)[j] < h * 60 + 60
    ensures OnGrid(m, iv) ==>
              forall j :: 0 <= j < |RowFrom(h, m, iv)| ==> OnGrid(RowFrom(h, m, iv)[j] % 60, iv)
    decreases 60 - m
  {
    if m < 60 {
      RowShape(h, m + iv, iv);
      var rest := RowFrom(h, m + iv, iv);
      assert RowFrom(h, m, iv) == [h * 60 + m] + rest;
      assert (h * 60 + m) % 60 == m;
      if OnGrid(m, iv) {
        GridStep(m, iv);
      }
    }
  }

  lemma ConcatIncreasing(a: seq<int>, b: seq<int>)
    requires StrictlyIncreasing(a) && StrictlyIncreasing(b)
    requires forall i, j :: 0 <= i < |a| && 0 <= j < |b| ==> a[i] < b[j]
    ensures StrictlyIncreasing(a + b)
  {
  }

  lemma {:induction false} SlotsBeforeLength(h: int, iv: int)
    requires iv > 0 && FirstHour <= h <= LastHour
    ensures |SlotsBefore(h, iv)| == (h - FirstHour) * PerHour(iv)
    decreases h
  {
    if h > FirstHour {
      SlotsBeforeLength(h - 1, iv);
      RowLength(h - 1, 0, iv);
      assert (h - 1 - FirstHour) * PerHour(iv) + PerHour(iv) == (h - FirstHour) * PerHour(iv);
    }
  }

  /** `s` increases, lies in [lo, hi) and every element's minute is on the grid. */
  ghost predicate GridRun(s: seq<int>, lo: int, hi: int, iv: int) {
    StrictlyIncreasing(s) &&
    (forall i :: 0 <= i < |s| ==> lo <= s[i] < hi) &&
    (forall i :: 0 <= i < |s| ==> OnGrid(s[i] % 60, iv))
  }

  /** The slots of hours 7 .. h-1 increase, lie in those hours and sit on the grid. */
  lemma {:induction false} SlotsBeforeShape(h: int, iv: int)
    requires iv > 0 && FirstHour <= h <= LastHour
    ensures GridRun(SlotsBefore(h, iv), FirstHour * 60, h * 60, iv)
    decreases h
  {
    if h > FirstHour {
      SlotsBeforeShape(h - 1, iv);
      var pre, row := SlotsBefore(h - 1, iv), HourSlots(h - 1, iv);
      assert SlotsBefore(h, iv) == pre + row;
      HourShape(h - 1, iv);
      ConcatShape(pre, row, FirstHour * 60, (h - 1) * 60, h * 60, iv);
    }
  }

  /** The slots of a full hour increase, lie inside it and sit on the grid. */
  lemma HourShape(h: int, iv: int)
    requires iv > 0 && h < LastHour
    ensures GridRun(HourSlots(h, iv), h * 60, h * 60 + 60, iv)
  {
    assert HourSlots(h, iv) == RowFrom(h, 0, iv);
    assert OnGrid(0, iv) by { assert 0 == Times(0, iv); }
    RowShape(h, 0, iv);
  }

  /** Two grid runs, the first below `mid` and the second from `mid` on, concatenate
      into one. */
  lemma ConcatShape(a: seq<int>, b: seq<int>, lo: int, mid: int, hi: int, iv: int)
    requires lo <= mid <= hi
    requires GridRun(a, lo, mid, iv) && GridRun(b, mid, hi, iv)
    ensures GridRun(a + b, lo, hi, iv)
  {
    ConcatIncreasing(a, b);
    forall i | 0 <= i < |a + b|
      ensures lo <= (a + b)[i] < hi && OnGrid((a + b)[i] % 60, iv)
    {
      if i < |a| {
        assert (a + b)[i] == a[i];
      } else {
        assert (a + b)[i] == b[i - |a|];
      }
    }
  }

  /** The first slot of hours 7 .. h-1 is 07:00, and with the 30-minute grid the
      second is 07:30. */
  lemma {:induction false} SlotsBeforeStart(h: int, iv: int)
    requires iv > 0 && FirstHour < h <= LastHour
    ensures |SlotsBefore(h, iv)| > 0 && SlotsBefore(h, iv)[0] == 420
    ensures iv == 30 ==> |SlotsBefore(h, iv)| > 1 && SlotsBefore(h, iv)[1] == 450
    decreases h
  {
    if h > FirstHour + 1 {
      SlotsBeforeStart(h - 1, iv);
    } else {
      assert SlotsBefore(h, iv) == RowFrom(FirstHour, 0, iv);
      if iv == 30 {
        assert RowFrom(FirstHour, 0, 30) == [420, 450];
      }
    }
  }

  /** The grid starts at 07:00, ends at 20:00, is strictly increasing, stays within
      07:00–20:00, holds 13 full hours plus 20:00, and every slot's minute is a
      multiple of the interval. */
  lemma SlotsShape(iv: int)
    requires iv > 0
    ensures |Slots(iv)| == 13 * PerHour(iv) + 1
    ensures Slots(iv)[0] == 420 && Slots(iv)[|Slots(iv)| - 1] == 1200
    ensures StrictlyIncreasing(Slots(iv))
    ensures forall i :: 0 <= i < |Slots(iv)| ==> 420 <= Slots(iv)[i] <= 1200
    ensures forall i :: 0 <= i < |Slots(iv)| ==> OnGrid(Slots(iv)[i] % 60, iv)
  {
    SlotsBeforeLength(LastHour, iv);
    SlotsBeforeShape(LastHour, iv);
    SlotsBeforeStart(LastHour, iv);
    var pre := SlotsBefore(LastHour, iv);
    assert Slots(iv) == pre + [1200];
    ConcatIncreasing(pre, [1200]);
    assert OnGrid(1200 % 60, iv) by { assert 1200 % 60 == Times(0, iv); }
  }

  /** With the 30-minute grid of the weekly calendar there are exactly 27 slots,
      07:00, 07:30, …, 20:00. */
  lemma HalfHourGrid()
    ensures |Slots(30)| == 27
    ensures Slots(30)[1] == 450
  {
    assert RowFrom(0, 0, 30) == [0, 30];
    SlotsShape(30);
    SlotsBeforeStart(LastHour, 30);
    assert Slots(30) == SlotsBefore(LastHour, 30) + [1200];
  }

  /** What the inner loop still has to push for hour `h` once it reaches minute `m`. */
  function Remaining(h: int, m: int, iv: int): seq<int>
    requires iv > 0
  {
    if h == LastHour then (if m == 0 then [h * 60] else []) else RowFrom(h, m, iv)
  }

  lemma RemainingStep(h: int, m: int, iv: int)
    requires iv > 0 && 0 <= m < 60 && !(h == LastHour && m > 0)
    ensures Remaining(h, m, iv) == [h * 60 + m] + Remaining(h, m + iv, iv)
  {
  }

  /** Pushing one slot moves it from what remains to what was pushed. */
  lemma PushStep(pushed: seq<int>, h: int, m: int, iv: int)
    requires iv > 0 && 0 <= m < 60 && !(h == LastHour && m > 0)
    ensures pushed + Remaining(h, m, iv) == (pushed + [h * 60 + m]) + Remaining(h, m + iv, iv)
  {
    RemainingStep(h, m, iv);
  }

  lemma RemainingDone(h: int, m: int, iv: int)
    requires iv > 0 && 0 <= m && (m >= 60 || (h == LastHour && m > 0))
    ensures Remaining(h, m, iv) == []
  {
  }

  /** The source's inner loop for hour `h`: minutes 0, iv, 2·iv, … below 60, stopping
      after 20:00 itself in the last hour. */
  method PushHour(pushed: seq<int>, hour: int, intervalMinutes: int) returns (slots: seq<int>)
    requires intervalMinutes > 0
    ensures slots == pushed + HourSlots(hour, intervalMinutes)
  {
    slots := pushed;
    var minute := 0;
    while minute < 60
      invariant 0 <= minute
      invariant slots + Remaining(hour, minute, intervalMinutes)
                == pushed + HourSlots(hour, intervalMinutes)
    {
      if hour == LastHour && minute > 0 {
        break;
      }
      PushStep(slots, hour, minute, intervalMinutes);
      slots := slots + [hour * 60 + minute];
      minute := minute + intervalMinutes;
    }
    RemainingDone(hour, minute, intervalMinutes);
    assert slots + [] == slots;
  }

  lemma SlotsBeforeNext(h: int, iv: int)
    requires iv > 0 && FirstHour <= h
    ensures SlotsBefore(h + 1, iv) == SlotsBefore(h, iv) + HourSlots(h, iv)
  {
  }

  /** The source's outer loop: the hours 7..20 one after the other. */
  method CreateTimeSlots(intervalMinutes: int) returns (slots: seq<int>)
    requires intervalMinutes > 0
    ensures slots == Slots(intervalMinutes)
  {
    slots := [];
    for hour := FirstHour to LastHour + 1
      invariant slots == SlotsBefore(hour, intervalMinutes)
    {
      SlotsBeforeNext(hour, intervalMinutes);
      slots := PushHour(slots, hour, intervalMinutes);
    }
    assert slots == SlotsBefore(LastHour + 1, intervalMinutes);
  }
}
