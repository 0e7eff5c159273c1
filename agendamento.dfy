/** The schedule screen's list logic (`Agendamento.tsx`): the 96 quarter-hour
    options of the time picker, the slot list operations behind the buttons
    and switches, the auto-refill effect, and the mappings between the slot
    list and the records the server stores. */
module Agendamento {

  import opened Js
  import opened JsFacts

  /** One feeding slot of the list. Its id is a JavaScript number: new slots
      get an integer, loaded slots get whatever `parseInt` reads from the
      stored id, which may be NaN. */
  datatype TimeSlot = TimeSlot(id: Num, time: string, enabled: bool)

  /** An entry of the time picker. */
  datatype TimeOption = TimeOption(value: string, labelText: string)

  /** A schedule entry as the screen sends it to the server and reads it back. */
  datatype SaveRequest = SaveRequest(id: string, hora: string, hasAutomatico: bool, enabled: bool)

  /** The field `updateTime` sets and its new value: the picker sets `time`,
      the switch sets `enabled`. */
  datatype SlotField = TimeField(time: string) | EnabledField(enabled: bool)

  /** The most slots the add button allows. */
  const MaxSlots := 5

  /** The list the screen starts with, before anything is loaded. */
  const InitialSlots := [TimeSlot(Finite(1), "08:00", true)]

  // ---------------------------------------------------------------------
  // Time options

  /** `s.padStart(2, "0")`. */
  function PadStart2(s: string): (r: string)
    ensures |s| >= 2 ==> r == s
    ensures |s| < 2 ==> |r| == 2
    ensures r[|r| - |s|..] == s
    ensures forall i :: 0 <= i < |r| - |s| ==> r[i] == '0'
  {
    if |s| >= 2 then s else if |s| == 1 then "0" + s else "00"
  }

  /** The text of the option for `hour` and `minute`. */
  function OptionText(hour: nat, minute: nat): string {
    PadStart2(IntToString(hour)) + ":" + PadStart2(IntToString(minute))
  }

  /** The value of the `k`-th option: hour `k / 4`, minute `15 * (k % 4)`. */
  function TimeOptionValue(k: nat): string
    requires k < 96
  {
    OptionText(k / 4, k % 4 * 15)
  }

  /** `HH:MM` written digit by digit: the reference form of a clock time. */
  function Clock(hour: nat, minute: nat): string
    requires hour < 100 && minute < 100
  {
    [DigitChar(hour / 10), DigitChar(hour % 10), ':', DigitChar(minute / 10), DigitChar(minute % 10)]
  }

  lemma QuarterIndex(hour: nat, quarter: nat)
    requires hour < 24 && quarter < 4
    ensures (4 * hour + quarter) / 4 == hour && (4 * hour + quarter) % 4 == quarter
  {
  }

  /** The first `n` options. */
  function OptionsUpTo(n: nat): (r: seq<TimeOption>)
    requires n <= 96
    ensures |r| == n
  {
    if n == 0 then [] else OptionsUpTo(n - 1) + [TimeOption(TimeOptionValue(n - 1), TimeOptionValue(n - 1))]
  }

  lemma OptionsUpToNext(n: nat, option: TimeOption)
    requires n < 96 && option == TimeOption(TimeOptionValue(n), TimeOptionValue(n))
    ensures OptionsUpTo(n) + [option] == OptionsUpTo(n + 1)
  {
  }

  lemma {:induction false} OptionsUpToAt(n: nat, k: nat)
    requires k < n <= 96
    ensures OptionsUpTo(n)[k] == TimeOption(TimeOptionValue(k), TimeOptionValue(k))
  {
    var prefix := OptionsUpTo(n - 1);
    assert OptionsUpTo(n) == prefix + [TimeOption(TimeOptionValue(n - 1), TimeOptionValue(n - 1))];
    if k < n - 1 {
      OptionsUpToAt(n - 1, k);
      assert OptionsUpTo(n)[k] == prefix[k];
    }
  }

  /** The nested loops building `timeOptions`: for every hour and every
      quarter of it, one option whose value and label are the padded time. */
  method BuildTimeOptions() returns (options: seq<TimeOption>)
    ensures |options| == 96
    ensures forall k :: 0 <= k < 96 ==> options[k] == TimeOption(TimeOptionValue(k), TimeOptionValue(k))
  {
    options := [];
    var hour := 0;
    while hour < 24
      invariant 0 <= hour <= 24
      invariant |options| == 4 * hour && options == OptionsUpTo(|options|)
    {
      options := PushHour(options, hour);
      hour := hour + 1;
    }
    forall k | 0 <= k < 96
      ensures options[k] == TimeOption(TimeOptionValue(k), TimeOptionValue(k))
    {
      OptionsUpToAt(96, k);
    }
  }

  /** The inner loop: the four quarters of `hour`, pushed after the options
      of the earlier hours. */
  method PushHour(before: seq<TimeOption>, hour: nat) returns (options: seq<TimeOption>)
    requires hour < 24 && |before| == 4 * hour && before == OptionsUpTo(|before|)
    ensures |options| == 4 * hour + 4 && options == OptionsUpTo(|options|)
  {
    options := before;
    var minute := 0;
    ghost var quarter := 0;
    while minute < 60
      invariant 0 <= quarter <= 4 && minute == 15 * quarter
      invariant |options| == 4 * hour + quarter && options == OptionsUpTo(|options|)
    {
      var formattedHour := PadStart2(IntToString(hour));
      var formattedMinute := PadStart2(IntToString(minute));
      var text := formattedHour + ":" + formattedMinute;
      OptionAt(hour, quarter);
      OptionsUpToNext(|options|, TimeOption(text, text));
      options := options + [TimeOption(text, text)];
      minute := minute + 15;
      quarter := quarter + 1;
    }
  }

  /** A number below 100 is padded to exactly its two decimal digits. */
  lemma PadTwoDigits(n: nat)
    requires n < 100
    ensures PadStart2(IntToString(n)) == [DigitChar(n / 10), DigitChar(n % 10)]
  {
    var tens, ones := n / 10, n % 10;
    if n < 10 {
      SingleDigitString(n);
      assert tens == 0 && ones == n;
      assert DigitChar(0) == '0';
    } else {
      assert IntToString(n) == NatToString(tens) + [DigitChar(ones)];
      SingleDigitString(tens);
    }
  }

  /** Two padded numbers around a colon form the clock time. */
  lemma OptionTextIsClock(hour: nat, minute: nat)
    requires hour < 100 && minute < 100
    ensures OptionText(hour, minute) == Clock(hour, minute)
  {
    var x, y := PadStart2(IntToString(hour)), PadStart2(IntToString(minute));
    PadTwoDigits(hour);
    PadTwoDigits(minute);
    ColonJoin(x, y);
    assert OptionText(hour, minute) == x + ":" + y;
  }

  lemma ColonJoin(x: string, y: string)
    requires |x| == 2 && |y| == 2
    ensures x + ":" + y == [x[0], x[1], ':', y[0], y[1]]
  {
  }

  /** Every option is a five-character `HH:MM` with an hour from 00 to 23
      and a minute of 00, 15, 30 or 45. */
  lemma TimeOptionShape(k: nat)
    requires k < 96
    ensures k / 4 < 24 && k % 4 * 15 in {0, 15, 30, 45}
    ensures TimeOptionValue(k) == Clock(k / 4, k % 4 * 15)
  {
    var quarter := k % 4;
    assert quarter == 0 || quarter == 1 || quarter == 2 || quarter == 3;
    OptionTextIsClock(k / 4, quarter * 15);
  }

  /** The option for `hour` and quarter `quarter` sits at position `4 * hour + quarter`. */
  lemma OptionAt(hour: nat, quarter: nat)
    requires hour < 24 && quarter < 4
    ensures 4 * hour + quarter < 96
    ensures TimeOptionValue(4 * hour + quarter) == OptionText(hour, 15 * quarter)
  {
    QuarterIndex(hour, quarter);
    var k := 4 * hour + quarter;
    assert k / 4 == hour && k % 4 * 15 == 15 * quarter;
  }

  /** Every quarter hour of the day is offered, at position `4 * hour + minute / 15`. */
  lemma EveryQuarterHourListed(hour: nat, minute: nat)
    requires hour < 24 && minute in {0, 15, 30, 45}
    ensures 4 * hour + minute / 15 < 96
    ensures TimeOptionValue(4 * hour + minute / 15) == Clock(hour, minute)
  {
    PositionOf(hour, minute);
    OptionValueIs(4 * hour + minute / 15, hour, minute);
    OptionTextIsClock(hour, minute);
  }

  lemma PositionOf(hour: nat, minute: nat)
    requires hour < 24 && minute in {0, 15, 30, 45}
    ensures var k := 4 * hour + minute / 15;
            k < 96 && k / 4 == hour && k % 4 * 15 == minute
  {
    assert minute == 0 || minute == 15 || minute == 30 || minute == 45;
  }

  lemma OptionValueIs(k: nat, hour: nat, minute: nat)
    requires k < 96 && k / 4 == hour && k % 4 * 15 == minute
    ensures TimeOptionValue(k) == OptionText(hour, minute)
  {
  }

  lemma DigitCharLess(x: nat, y: nat)
    requires x < y < 10
    ensures DigitChar(x) < DigitChar(y)
  {
  }

  /** Clock times are ordered as strings by hour first, then by minute. */
  lemma ClockLess(h1: nat, m1: nat, h2: nat, m2: nat)
    requires h1 < 100 && m1 < 100 && h2 < 100 && m2 < 100
    requires h1 < h2 || (h1 == h2 && m1 < m2)
    ensures Less(Clock(h1, m1), Clock(h2, m2))
  {
    var a, b := Clock(h1, m1), Clock(h2, m2);
    if h1 / 10 != h2 / 10 {
      DigitCharLess(h1 / 10, h2 / 10);
      LessAt(a, b, 0);
    } else if h1 % 10 != h2 % 10 {
      DigitCharLess(h1 % 10, h2 % 10);
      assert a[..1] == b[..1];
      LessAt(a, b, 1);
    } else if m1 / 10 != m2 / 10 {
      assert h1 == h2;
      DigitCharLess(m1 / 10, m2 / 10);
      assert a[..3] == b[..3];
      LessAt(a, b, 3);
    } else {
      assert h1 == h2;
      DigitCharLess(m1 % 10, m2 % 10);
      assert a[..4] == b[..4];
      LessAt(a, b, 4);
    }
  }

  /** Option `k` is for hour `k / 4`, and two options of the same hour are
      ordered by their quarter, whose minute has a larger tens digit. */
  lemma OptionOrder(i: nat, j: nat)
    requires i < j < 96
    ensures i / 4 < j / 4 || (i / 4 == j / 4 && i % 4 * 15 / 10 < j % 4 * 15 / 10)
  {
    var p, q := i % 4, j % 4;
    if i / 4 == j / 4 {
      assert p < q;
      assert p == 0 || p == 1 || p == 2;
      assert q == 1 || q == 2 || q == 3;
    }
  }

  /** The options are in strictly ascending string order. */
  lemma TimeOptionsAscending(i: nat, j: nat)
    requires i < j < 96
    ensures Less(TimeOptionValue(i), TimeOptionValue(j))
  {
    var hi, mi, hj, mj := i / 4, i % 4 * 15, j / 4, j % 4 * 15;
    TimeOptionShape(i);
    TimeOptionShape(j);
    OptionOrder(i, j);
    assert hi < 24 && mi < 60 && hj < 24 && mj < 60;
    assert hi < hj || (hi == hj && mi / 10 < mj / 10);
    ClockLess(hi, mi, hj, mj);
  }

  /** Hence no two options share a value. */
  lemma TimeOptionsDistinct(i: nat, j: nat)
    requires i < 96 && j < 96 && i != j
    ensures TimeOptionValue(i) != TimeOptionValue(j)
  {
    if i < j {
      TimeOptionsAscending(i, j);
      LessImpliesDifferent(TimeOptionValue(i), TimeOptionValue(j));
    } else {
      TimeOptionsAscending(j, i);
      LessImpliesDifferent(TimeOptionValue(j), TimeOptionValue(i));
    }
  }

  // ---------------------------------------------------------------------
  // The slot list

  function Ids(times: seq<TimeSlot>): seq<Num> {
    seq(|times|, i requires 0 <= i < |times| => times[i].id)
  }

  /** No two slots have ids that are `===`. */
  predicate DistinctIds(times: seq<TimeSlot>) {
    forall i, j :: 0 <= i < j < |times| ==> !StrictEquals(times[i].id, times[j].id)
  }

  /** The arguments of `Math.max(0, ...ids)`. */
  function MaxArgs(times: seq<TimeSlot>): seq<Num> {
    [Finite(0)] + Ids(times)
  }

  /** The largest of 0 and the ids: NaN when some id is NaN, otherwise at
      least 0 and at least every finite id. */
  lemma MaxArgsBound(times: seq<TimeSlot>)
    ensures MaxOf(MaxArgs(times)).NaN? <==> exists i :: 0 <= i < |times| && times[i].id.NaN?
    ensures MaxOf(MaxArgs(times)).Finite? || MaxOf(MaxArgs(times)).NaN?
    ensures var m := MaxOf(MaxArgs(times));
            m.Finite? ==> m.n >= 0 && forall i :: 0 <= i < |times| && times[i].id.Finite? ==> times[i].id.n <= m.n
  {
    var args := MaxArgs(times);
    var m := MaxOf(args);
    if m.NaN? {
      var k :| 0 <= k < |args| && args[k].NaN?;
      assert times[k - 1].id.NaN?;
    }
    if exists i :: 0 <= i < |times| && times[i].id.NaN? {
      var i :| 0 <= i < |times| && times[i].id.NaN?;
      assert args[i + 1].NaN?;
    }
    assert !m.NegInfinity? by {
      assert !args[0].NegInfinity?;
    }
    if m.Finite? {
      assert args[0].Finite?;
      forall i | 0 <= i < |times| && times[i].id.Finite?
        ensures times[i].id.n <= m.n
      {
        assert args[i + 1] == times[i].id;
      }
    }
  }

  /** The id `addTime` gives a new slot: `Math.max(0, ...ids) + 1`. It is NaN
      when some id is NaN, and otherwise a positive integer above every id. */
  function NewId(times: seq<TimeSlot>): (r: Num)
    ensures r.NaN? <==> exists i :: 0 <= i < |times| && times[i].id.NaN?
    ensures !r.NaN? ==> r.Finite? && r.n >= 1
    ensures !r.NaN? ==> forall i :: 0 <= i < |times| && times[i].id.Finite? ==> times[i].id.n < r.n
  {
    MaxArgsBound(times);
    AddOne(MaxOf(MaxArgs(times)))
  }

  /** `addTime`: below the cap, appends an unset slot with a fresh id that is
      enabled exactly when auto-refill is off; at the cap, nothing changes. */
  function AddTime(times: seq<TimeSlot>, autoRefill: bool): (r: seq<TimeSlot>)
    ensures |times| >= MaxSlots ==> r == times
    ensures |times| < MaxSlots ==> |r| == |times| + 1 && r[..|times|] == times
    ensures |times| < MaxSlots ==> r[|times|] == TimeSlot(NewId(times), "", !autoRefill)
  {
    if |times| < MaxSlots then times + [TimeSlot(NewId(times), "", !autoRefill)] else times
  }

  /** Adding a slot keeps the ids distinct. */
  lemma AddTimeKeepsIdsDistinct(times: seq<TimeSlot>, autoRefill: bool)
    requires DistinctIds(times)
    ensures DistinctIds(AddTime(times, autoRefill))
  {
    var r := AddTime(times, autoRefill);
    if |times| < MaxSlots {
      forall i, j | 0 <= i < j < |r|
        ensures !StrictEquals(r[i].id, r[j].id)
      {
        if j < |times| {
          assert r[i] == times[i] && r[j] == times[j];
        } else {
          assert r[i] == times[i];
        }
      }
    }
  }

  /** `removeTime(id)`: the slots whose id is not `=== id`, in their order. */
  function RemoveTime(times: seq<TimeSlot>, id: Num): (r: seq<TimeSlot>)
    ensures |r| <= |times|
    ensures forall s :: s in r <==> s in times && !StrictEquals(s.id, id)
    ensures (forall i :: 0 <= i < |times| ==> !StrictEquals(times[i].id, id)) ==> r == times
  {
    if times == [] then []
    else
      var rest := RemoveTime(times[1..], id);
      assert forall i :: 0 <= i < |times| - 1 ==> times[1..][i] == times[i + 1];
      if StrictEquals(times[0].id, id) then rest else [times[0]] + rest
  }

  /** Removal works on each part of a list separately, so it keeps the order. */
  lemma {:induction false} RemoveTimeAppend(a: seq<TimeSlot>, b: seq<TimeSlot>, id: Num)
    ensures RemoveTime(a + b, id) == RemoveTime(a, id) + RemoveTime(b, id)
  {
    if a == [] {
      assert a + b == b;
    } else {
      assert (a + b)[0] == a[0];
      assert (a + b)[1..] == a[1..] + b;
      RemoveTimeAppend(a[1..], b, id);
    }
  }

  /** Removing an id from a list that is some slots, then one slot holding
      that id, then more slots none of which holds it, leaves the other
      slots. */
  lemma RemoveTimeAround(whole: seq<TimeSlot>, before: seq<TimeSlot>, slot: TimeSlot, after: seq<TimeSlot>, id: Num)
    requires whole == before + [slot] + after
    requires RemoveTime(before, id) == before && RemoveTime(after, id) == after
    requires RemoveTime([slot], id) == []
    ensures RemoveTime(whole, id) == before + after
  {
    RemoveTimeAppend(before + [slot], after, id);
    RemoveTimeAppend(before, [slot], id);
    assert before + [] == before;
  }

  /** A slot whose id is a number is removed by its own id. */
  lemma RemoveTimeOwnId(slot: TimeSlot)
    requires !slot.id.NaN?
    ensures RemoveTime([slot], slot.id) == []
  {
    assert StrictEquals(slot.id, slot.id);
    assert [slot][1..] == [];
  }

  lemma SplitAt(times: seq<TimeSlot>, i: nat)
    requires i < |times|
    ensures times == times[..i] + [times[i]] + times[i + 1..]
  {
  }

  /** With distinct ids, removing the id of slot `i` removes that slot and
      nothing else. A NaN id equals nothing, so removing it removes nothing. */
  lemma RemoveTimeAt(times: seq<TimeSlot>, i: nat)
    requires DistinctIds(times) && i < |times|
    ensures !times[i].id.NaN? ==> RemoveTime(times, times[i].id) == times[..i] + times[i + 1..]
    ensures times[i].id.NaN? ==> RemoveTime(times, times[i].id) == times
  {
    var id := times[i].id;
    if !id.NaN? {
      KeptBefore(times, i);
      KeptAfter(times, i);
      RemoveTimeOwnId(times[i]);
      SplitAt(times, i);
      RemoveTimeAround(times, times[..i], times[i], times[i + 1..], id);
    }
  }

  lemma DistinctAt(times: seq<TimeSlot>, a: nat, b: nat)
    requires DistinctIds(times) && a < |times| && b < |times| && a != b
    ensures !StrictEquals(times[a].id, times[b].id)
  {
    if b < a {
      assert !StrictEquals(times[b].id, times[a].id);
    }
  }

  lemma KeptBefore(times: seq<TimeSlot>, i: nat)
    requires DistinctIds(times) && i < |times|
    ensures RemoveTime(times[..i], times[i].id) == times[..i]
  {
    OthersKept(times, i, times[..i], 0);
  }

  lemma KeptAfter(times: seq<TimeSlot>, i: nat)
    requires DistinctIds(times) && i < |times|
    ensures RemoveTime(times[i + 1..], times[i].id) == times[i + 1..]
  {
    OthersKept(times, i, times[i + 1..], i + 1);
  }

  /** A part of a list with distinct ids that does not hold slot `i` loses
      nothing when slot `i`'s id is removed. */
  lemma OthersKept(times: seq<TimeSlot>, i: nat, part: seq<TimeSlot>, from: nat)
    requires DistinctIds(times) && i < |times|
    requires from + |part| <= |times| && (i < from || from + |part| <= i)
    requires forall k :: 0 <= k < |part| ==> part[k] == times[from + k]
    ensures RemoveTime(part, times[i].id) == part
  {
    forall k | 0 <= k < |part|
      ensures !StrictEquals(part[k].id, times[i].id)
    {
      DistinctAt(times, from + k, i);
    }
  }

  /** The slot with `field` set to the new value and every other field kept. */
  function WithField(slot: TimeSlot, value: SlotField): (r: TimeSlot)
    ensures r.id == slot.id
    ensures r.time == (if value.TimeField? then value.time else slot.time)
    ensures r.enabled == (if value.EnabledField? then value.enabled else slot.enabled)
  {
    match value
    case TimeField(t) => slot.(time := t)
    case EnabledField(b) => slot.(enabled := b)
  }

  /** `updateTime(id, field, value)`: sets the field on every slot whose id
      is `=== id` and leaves length, order and the other slots as they are. */
  function UpdateTime(times: seq<TimeSlot>, id: Num, value: SlotField): (r: seq<TimeSlot>)
    ensures |r| == |times|
    ensures forall i :: 0 <= i < |times| && StrictEquals(times[i].id, id) ==> r[i] == WithField(times[i], value)
    ensures forall i :: 0 <= i < |times| && !StrictEquals(times[i].id, id) ==> r[i] == times[i]
    ensures id.NaN? ==> r == times
  {
    seq(|times|, i requires 0 <= i < |times| =>
      if StrictEquals(times[i].id, id) then WithField(times[i], value) else times[i])
  }

  /** With distinct ids, updating the id of slot `i` changes that slot only. */
  lemma UpdateTimeAt(times: seq<TimeSlot>, i: nat, value: SlotField)
    requires DistinctIds(times) && i < |times| && !times[i].id.NaN?
    ensures UpdateTime(times, times[i].id, value) == times[i := WithField(times[i], value)]
  {
    var r := UpdateTime(times, times[i].id, value);
    forall j | 0 <= j < |times| && j != i
      ensures r[j] == times[j]
    {
      if j < i {
        assert !StrictEquals(times[j].id, times[i].id);
      } else {
        assert !StrictEquals(times[i].id, times[j].id);
      }
    }
  }

  /** Every slot with `enabled` off; ids and times kept. */
  function DisableAll(times: seq<TimeSlot>): (r: seq<TimeSlot>)
    ensures |r| == |times| && Ids(r) == Ids(times) && UsedTimes(r) == UsedTimes(times)
    ensures EnabledCount(r) == 0
  {
    seq(|times|, i requires 0 <= i < |times| => times[i].(enabled := false))
  }

  /** The slot list after the auto-refill effect runs for a new `autoRefill`. */
  function AutoRefillEffect(autoRefill: bool, times: seq<TimeSlot>): (r: seq<TimeSlot>)
    ensures |r| == |times| && Ids(r) == Ids(times)
    ensures forall i :: 0 <= i < |times| ==> r[i].time == times[i].time
    ensures autoRefill ==> forall i :: 0 <= i < |times| ==> !r[i].enabled
    ensures !autoRefill ==> r == times
  {
    if autoRefill then DisableAll(times) else times
  }

  /** The number the footer shows: how many slots are enabled. */
  function EnabledCount(times: seq<TimeSlot>): (n: nat)
    ensures n <= |times|
    ensures n == 0 <==> forall i :: 0 <= i < |times| ==> !times[i].enabled
    ensures n == |times| <==> forall i :: 0 <= i < |times| ==> times[i].enabled
  {
    if times == [] then 0
    else
      var rest := EnabledCount(times[1..]);
      assert forall i :: 0 <= i < |times| - 1 ==> times[1..][i] == times[i + 1];
      (if times[0].enabled then 1 else 0) + rest
  }

  lemma {:induction false} EnabledCountAppend(a: seq<TimeSlot>, b: seq<TimeSlot>)
    ensures EnabledCount(a + b) == EnabledCount(a) + EnabledCount(b)
  {
    if a == [] {
      assert a + b == b;
    } else {
      assert (a + b)[0] == a[0];
      assert (a + b)[1..] == a[1..] + b;
      EnabledCountAppend(a[1..], b);
    }
  }

  /** A slot added with auto-refill off adds one to the count; with
      auto-refill on it is added disabled and the count stays. */
  lemma AddTimeCount(times: seq<TimeSlot>, autoRefill: bool)
    requires |times| < MaxSlots
    ensures EnabledCount(AddTime(times, autoRefill)) == EnabledCount(times) + (if autoRefill then 0 else 1)
  {
    EnabledCountAppend(times, [TimeSlot(NewId(times), "", !autoRefill)]);
  }

  /** The time values the picker checks against. */
  function UsedTimes(times: seq<TimeSlot>): (r: seq<string>)
    ensures |r| == |times|
    ensures forall t :: t in r <==> exists i :: 0 <= i < |times| && times[i].time == t
  {
    var r := seq(|times|, i requires 0 <= i < |times| => times[i].time);
    assert forall i :: 0 <= i < |times| ==> r[i] == times[i].time;
    r
  }

  /** Whether the picker of `slot` disables `option`. */
  predicate IsUsed(times: seq<TimeSlot>, slot: TimeSlot, option: string) {
    option in UsedTimes(times) && slot.time != option
  }

  /** In the picker of slot `k`, an option is disabled exactly when another
      slot holds that time and slot `k` does not. */
  lemma IsUsedMeaning(times: seq<TimeSlot>, k: nat, option: string)
    requires k < |times|
    ensures IsUsed(times, times[k], option) <==>
            (exists j :: 0 <= j < |times| && j != k && times[j].time == option) && times[k].time != option
  {
    if IsUsed(times, times[k], option) {
      var j :| 0 <= j < |times| && UsedTimes(times)[j] == option;
      assert j != k;
    }
    if exists j :: 0 <= j < |times| && j != k && times[j].time == option {
      var j :| 0 <= j < |times| && j != k && times[j].time == option;
      assert UsedTimes(times)[j] == option;
    }
  }

  /** No time is set on two slots (unset slots do not count). */
  predicate DistinctTimes(times: seq<TimeSlot>) {
    forall i, j :: 0 <= i < j < |times| && times[i].time == times[j].time ==> times[i].time == ""
  }

  /** Picking an option that the picker does not disable keeps the set
      times distinct. */
  lemma PickKeepsTimesDistinct(times: seq<TimeSlot>, k: nat, option: string)
    requires DistinctIds(times) && DistinctTimes(times)
    requires k < |times| && !times[k].id.NaN?
    requires !IsUsed(times, times[k], option)
    ensures DistinctTimes(UpdateTime(times, times[k].id, TimeField(option)))
  {
    UpdateTimeAt(times, k, TimeField(option));
    IsUsedMeaning(times, k, option);
    var r := UpdateTime(times, times[k].id, TimeField(option));
    forall i, j | 0 <= i < j < |r| && r[i].time == r[j].time
      ensures r[i].time == ""
    {
      if i == k {
        assert times[j].time == option;
      } else if j == k {
        assert times[i].time == option;
      } else {
        assert r[i] == times[i] && r[j] == times[j];
      }
    }
  }

  /** The starting list: one slot, switched on, and the next slot added to
      it gets id 2. */
  lemma InitialSlotsShape()
    ensures EnabledCount(InitialSlots) == 1 && DistinctIds(InitialSlots)
    ensures NewId(InitialSlots) == Finite(2)
  {
    assert MaxArgs(InitialSlots) == [Finite(0), Finite(1)];
  }

  /** The starting slot's time is the picker's 08:00 option. */
  lemma InitialTimeIsOption()
    ensures InitialSlots[0].time == TimeOptionValue(32)
  {
    OptionAt(8, 0);
    SingleDigitString(8);
    SingleDigitString(0);
    assert OptionText(8, 0) == "08:00";
  }

  // ---------------------------------------------------------------------
  // Saving and loading

  /** The mapping before a save: position `i` becomes id `(i + 1).toString()`,
      the time becomes `hora`, and every entry carries the current auto-refill. */
  function ToSaveRequests(times: seq<TimeSlot>, autoRefill: bool): (r: seq<SaveRequest>)
    ensures |r| == |times|
    ensures forall i :: 0 <= i < |times| ==>
              r[i] == SaveRequest(IntToString(i + 1), times[i].time, autoRefill, times[i].enabled)
  {
    seq(|times|, i requires 0 <= i < |times| =>
      SaveRequest(IntToString(i + 1), times[i].time, autoRefill, times[i].enabled))
  }

  /** The load transform: `parseInt` of the id, `hora` as the time, `enabled` kept. */
  function LoadSlots(data: seq<SaveRequest>): (r: seq<TimeSlot>)
    ensures |r| == |data|
    ensures forall i :: 0 <= i < |data| ==> r[i] == TimeSlot(ParseInt(data[i].id), data[i].hora, data[i].enabled)
  {
    seq(|data|, i requires 0 <= i < |data| => TimeSlot(ParseInt(data[i].id), data[i].hora, data[i].enabled))
  }

  /** Auto-refill after a fetch: `data[0]?.hasAutomatico || false`. */
  function FetchedAutoRefill(data: seq<SaveRequest>): (a: bool)
    ensures a <==> |data| > 0 && data[0].hasAutomatico
  {
    if |data| > 0 then data[0].hasAutomatico else false
  }

  /** Auto-refill after a pushed list: taken from the first entry, and left
      as it was when the list is empty. */
  function PushedAutoRefill(current: bool, data: seq<SaveRequest>): (a: bool)
    ensures |data| == 0 ==> a == current
    ensures |data| > 0 ==> a == data[0].hasAutomatico
  {
    if |data| > 0 then data[0].hasAutomatico else current
  }

  /** The list renumbered by position: ids 1..N, times and switches kept. */
  function Renumbered(times: seq<TimeSlot>): (r: seq<TimeSlot>)
    ensures |r| == |times| && DistinctIds(r)
    ensures forall i :: 0 <= i < |times| ==> r[i] == times[i].(id := Finite(i + 1))
  {
    seq(|times|, i requires 0 <= i < |times| => TimeSlot(Finite(i + 1), times[i].time, times[i].enabled))
  }

  /** Loading what a save sends gives back the list renumbered 1..N, with
      auto-refill on exactly when it was on and the list is not empty. */
  lemma SaveThenLoad(times: seq<TimeSlot>, autoRefill: bool, current: bool)
    ensures LoadSlots(ToSaveRequests(times, autoRefill)) == Renumbered(times)
    ensures FetchedAutoRefill(ToSaveRequests(times, autoRefill)) == (|times| > 0 && autoRefill)
    ensures PushedAutoRefill(current, ToSaveRequests(times, autoRefill)) == (if |times| > 0 then autoRefill else current)
  {
    forall n | 1 <= n <= |times|
      ensures ParseInt(IntToString(n)) == Finite(n)
    {
      ParseIntOfIntToStringExact(n);
    }
  }

  /** A renumbered list has distinct ids, and the next slot added to it gets id N + 1. */
  lemma RenumberedIds(times: seq<TimeSlot>)
    ensures DistinctIds(Renumbered(times))
    ensures NewId(Renumbered(times)) == Finite(|times| + 1)
  {
    var r := Renumbered(times);
    var x := NewId(r);
    assert x.Finite?;
    if |times| > 0 {
      assert r[|times| - 1].id == Finite(|times|);
    }
    var args := [Finite(0)] + Ids(r);
    assert forall i :: 0 <= i < |args| ==> args[i].Finite? && args[i].n <= |times|;
  }
}
