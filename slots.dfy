/** The schedule of the appointment screen: the day-availability records of one
    provider are split into a morning list (hours before noon) and an afternoon
    list (noon and later), and every entry gets the "HH:00" label the screen
    shows on its hour button. */
module Slots {

  /** One record of the day-availability response. */
  datatype AvailabilityItem = AvailabilityItem(hour: int, available: bool)

  /** A record as the schedule renders it: the same hour and availability, plus its label. */
  datatype HourSlot = HourSlot(hour: int, available: bool, hourFormatted: string)

  predicate IsMorning(item: AvailabilityItem) { item.hour < 12 }

  predicate IsAfternoon(item: AvailabilityItem) { item.hour >= 12 }

  /** Array.prototype.filter: the items of `s` that satisfy `p`, in the order of `s`. */
  function Filter(s: seq<AvailabilityItem>, p: AvailabilityItem -> bool): (r: seq<AvailabilityItem>)
    ensures |r| <= |s|
    ensures forall k :: 0 <= k < |r| ==> p(r[k]) && r[k] in s
  {
    if s == [] then []
    else if p(s[0]) then [s[0]] + Filter(s[1..], p)
    else Filter(s[1..], p)
  }

  /** `r` is `s` with some elements dropped and the rest kept in order. */
  predicate IsSubsequence(r: seq<AvailabilityItem>, s: seq<AvailabilityItem>)
  {
    if r == [] then true
    else if s == [] then false
    else if r[0] == s[0] then IsSubsequence(r[1..], s[1..])
    else IsSubsequence(r, s[1..])
  }

  // ---------------------------------------------------------------------------
  // Labels

  function DigitChar(d: int): (c: char)
    requires 0 <= d < 10
    ensures '0' <= c <= '9' && c as int - '0' as int == d
  {
    (('0' as int) + d) as char
  }

  function DigitValue(c: char): int { c as int - '0' as int }

  /** date-fns `format(new Date().setHours(hour), 'HH:00')`. Date.setHours rolls an
      hour outside 0..23 over into a neighbouring day, so the label shows the hour
      of the day, `hour` modulo 24 (Dafny's `%` never yields a negative value, as
      the roll-over backwards from -1 to 23 needs). */
  function HourLabel(hour: int): (text: string)
    ensures |text| == 5 && text[2..] == ":00"
    ensures '0' <= text[0] <= '2' && '0' <= text[1] <= '9'
    ensures DigitValue(text[0]) * 10 + DigitValue(text[1]) == hour % 24
  {
    var h := hour % 24;
    [DigitChar(h / 10), DigitChar(h % 10), ':', '0', '0']
  }

  /** Within a day distinct hours get distinct labels. */
  lemma HourLabelInjective(a: int, b: int)
    requires 0 <= a < 24 && 0 <= b < 24
    ensures HourLabel(a) == HourLabel(b) <==> a == b
  {
  }

  /** Two sample labels: 9 o'clock and 14 o'clock. */
  lemma HourLabelExamples()
    ensures HourLabel(9) == "09:00"
    ensures HourLabel(14) == "14:00"
  {
  }

  /** The `.map` step: every item keeps its hour and availability and gains its label. */
  function Annotate(s: seq<AvailabilityItem>): (r: seq<HourSlot>)
    ensures |r| == |s|
    ensures forall k :: 0 <= k < |s| ==>
      r[k].hour == s[k].hour && r[k].available == s[k].available && r[k].hourFormatted == HourLabel(s[k].hour)
  {
    seq(|s|, k requires 0 <= k < |s| => HourSlot(s[k].hour, s[k].available, HourLabel(s[k].hour)))
  }

  /** Drops the label again: the inverse of Annotate. */
  function Unlabel(r: seq<HourSlot>): seq<AvailabilityItem>
  {
    seq(|r|, k requires 0 <= k < |r| => AvailabilityItem(r[k].hour, r[k].available))
  }

  lemma UnlabelAnnotate(s: seq<AvailabilityItem>)
    ensures Unlabel(Annotate(s)) == s
  {
  }

  // ---------------------------------------------------------------------------
  // The two lists of the schedule

  function MorningItems(s: seq<AvailabilityItem>): seq<AvailabilityItem> { Filter(s, IsMorning) }

  function AfternoonItems(s: seq<AvailabilityItem>): seq<AvailabilityItem> { Filter(s, IsAfternoon) }

  /** `morningAvailability`: the items before noon, labelled. */
  function MorningAvailability(s: seq<AvailabilityItem>): (r: seq<HourSlot>)
    ensures forall k :: 0 <= k < |r| ==> r[k].hour < 12
  {
    Annotate(MorningItems(s))
  }

  /** `afternoonAvailability`: the items from noon on, labelled. */
  function AfternoonAvailability(s: seq<AvailabilityItem>): (r: seq<HourSlot>)
    ensures forall k :: 0 <= k < |r| ==> r[k].hour >= 12
  {
    Annotate(AfternoonItems(s))
  }

  // ---------------------------------------------------------------------------
  // Properties of Filter

  lemma {:induction false} FilterMembership(s: seq<AvailabilityItem>, p: AvailabilityItem -> bool, x: AvailabilityItem)
    ensures x in Filter(s, p) <==> x in s && p(x)
  {
    if s != [] {
      FilterMembership(s[1..], p, x);
      assert s == [s[0]] + s[1..];
    }
  }

  /** Filter keeps every occurrence of a selected value and nothing else. */
  lemma {:induction false} FilterCount(s: seq<AvailabilityItem>, p: AvailabilityItem -> bool, x: AvailabilityItem)
    ensures multiset(Filter(s, p))[x] == if p(x) then multiset(s)[x] else 0
  {
    if s != [] {
      FilterCount(s[1..], p, x);
      assert s == [s[0]] + s[1..];
    }
  }

  /** Filter keeps the relative order of the input. */
  lemma {:induction false} FilterIsSubsequence(s: seq<AvailabilityItem>, p: AvailabilityItem -> bool)
    ensures IsSubsequence(Filter(s, p), s)
  {
    if s != [] {
      FilterIsSubsequence(s[1..], p);
      var r := Filter(s, p);
      if p(s[0]) {
        assert r[0] == s[0] && r[1..] == Filter(s[1..], p);
      } else {
        SkipHead(r, s);
      }
    }
  }

  /** A subsequence of the tail of `s` is a subsequence of `s`. */
  lemma {:induction false} SkipHead(r: seq<AvailabilityItem>, s: seq<AvailabilityItem>)
    requires s != [] && IsSubsequence(r, s[1..])
    ensures IsSubsequence(r, s)
    decreases |s|, 0
  {
    if r != [] && r[0] == s[0] {
      SubsequenceOfTail(r, s[1..]);
    }
  }

  /** Dropping the first element keeps a subsequence a subsequence. */
  lemma {:induction false} SubsequenceOfTail(r: seq<AvailabilityItem>, s: seq<AvailabilityItem>)
    requires r != [] && IsSubsequence(r, s)
    ensures IsSubsequence(r[1..], s)
    decreases |s|, 1
  {
    assert s != [];
    if r[0] == s[0] {
      if r[1..] != [] {
        SubsequenceOfTail(r[1..], s[1..]);
        SkipHead(r[1..], s);
      }
    } else {
      SubsequenceOfTail(r, s[1..]);
      SkipHead(r[1..], s);
    }
  }

  // ---------------------------------------------------------------------------
  // Properties of the two lists

  /** The morning list holds exactly the items before noon, in input order, each
      with its hour and availability unchanged. */
  lemma MorningExactly(s: seq<AvailabilityItem>)
    ensures Unlabel(MorningAvailability(s)) == MorningItems(s)
    ensures IsSubsequence(MorningItems(s), s)
    ensures forall x :: multiset(MorningItems(s))[x] == if x.hour < 12 then multiset(s)[x] else 0
  {
    UnlabelAnnotate(MorningItems(s));
    FilterIsSubsequence(s, IsMorning);
    forall x ensures multiset(MorningItems(s))[x] == if x.hour < 12 then multiset(s)[x] else 0 {
      FilterCount(s, IsMorning, x);
    }
  }

  /** The afternoon list holds exactly the items from noon on, in input order,
      each with its hour and availability unchanged. */
  lemma AfternoonExactly(s: seq<AvailabilityItem>)
    ensures Unlabel(AfternoonAvailability(s)) == AfternoonItems(s)
    ensures IsSubsequence(AfternoonItems(s), s)
    ensures forall x :: multiset(AfternoonItems(s))[x] == if x.hour >= 12 then multiset(s)[x] else 0
  {
    UnlabelAnnotate(AfternoonItems(s));
    FilterIsSubsequence(s, IsAfternoon);
    forall x ensures multiset(AfternoonItems(s))[x] == if x.hour >= 12 then multiset(s)[x] else 0 {
      FilterCount(s, IsAfternoon, x);
    }
  }

  /** Every input item lands in exactly one of the two lists, and together they
      hold the input once over. */
  lemma {:induction false} PartitionComplete(s: seq<AvailabilityItem>)
    ensures |MorningAvailability(s)| + |AfternoonAvailability(s)| == |s|
    ensures multiset(MorningItems(s)) + multiset(AfternoonItems(s)) == multiset(s)
    ensures forall x :: x in s ==> (x in MorningItems(s) <==> x !in AfternoonItems(s))
  {
    if s != [] {
      PartitionComplete(s[1..]);
      assert s == [s[0]] + s[1..];
    }
    forall x | x in s ensures x in MorningItems(s) <==> x !in AfternoonItems(s) {
      FilterMembership(s, IsMorning, x);
      FilterMembership(s, IsAfternoon, x);
    }
  }

  /** The hours of `s` are hours of the day, each at most once. */
  predicate DistinctHoursOfDay(s: seq<AvailabilityItem>)
  {
    && (forall i :: 0 <= i < |s| ==> 0 <= s[i].hour < 24)
    && (forall i, j :: 0 <= i < j < |s| ==> s[i].hour != s[j].hour)
  }

  /** Filtering keeps the hours distinct and within the day. */
  lemma {:induction false} FilterDistinctHours(s: seq<AvailabilityItem>, p: AvailabilityItem -> bool)
    requires DistinctHoursOfDay(s)
    ensures DistinctHoursOfDay(Filter(s, p))
  {
    if s != [] {
      var t := s[1..];
      assert DistinctHoursOfDay(t) by {
        forall i, j | 0 <= i < j < |t| ensures t[i].hour != t[j].hour {
          assert t[i] == s[i + 1] && t[j] == s[j + 1];
        }
      }
      FilterDistinctHours(t, p);
      if p(s[0]) {
        var rest := Filter(t, p);
        forall k | 0 <= k < |rest| ensures rest[k].hour != s[0].hour {
          var m :| 0 <= m < |t| && t[m] == rest[k];
          assert s[m + 1] == rest[k];
        }
        PrependDistinct(s[0], rest);
      }
    }
  }

  /** An hour of the day absent from a list of distinct hours can go in front. */
  lemma PrependDistinct(x: AvailabilityItem, rest: seq<AvailabilityItem>)
    requires DistinctHoursOfDay(rest) && 0 <= x.hour < 24
    requires forall k :: 0 <= k < |rest| ==> rest[k].hour != x.hour
    ensures DistinctHoursOfDay([x] + rest)
  {
  }

  /** A labelled list whose hours are distinct hours of the day carries no
      label twice. */
  lemma DistinctLabels(s: seq<AvailabilityItem>)
    requires DistinctHoursOfDay(s)
    ensures forall i, j :: 0 <= i < j < |s| ==> Annotate(s)[i].hourFormatted != Annotate(s)[j].hourFormatted
  {
  }

  /** When the response holds each hour of the day at most once, the labels
      used as keys within the morning list are distinct, and so are those within
      the afternoon list. */
  lemma ScheduleKeysDistinct(s: seq<AvailabilityItem>)
    requires DistinctHoursOfDay(s)
    ensures var m := MorningAvailability(s);
      forall i, j :: 0 <= i < j < |m| ==> m[i].hourFormatted != m[j].hourFormatted
    ensures var a := AfternoonAvailability(s);
      forall i, j :: 0 <= i < j < |a| ==> a[i].hourFormatted != a[j].hourFormatted
  {
    FilterDistinctHours(s, IsMorning);
    DistinctLabels(MorningItems(s));
    FilterDistinctHours(s, IsAfternoon);
    DistinctLabels(AfternoonItems(s));
  }

  /** A response that repeats an hour gives two entries with the same label. */
  lemma RepeatedHourRepeatsLabel()
    ensures var m := MorningAvailability([AvailabilityItem(9, true), AvailabilityItem(9, false)]);
      |m| == 2 && m[0].hourFormatted == m[1].hourFormatted == "09:00"
  {
  }
}
