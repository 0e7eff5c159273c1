/** How the schedule screen and the server work together: what the screen's
    save sends, what the save route then leaves in the collection, and what
    the screen's WebSocket messages do to the feeder state. Renumbering the
    slots 1..N by position is what lets the route's prune drop the slots
    the user removed. */
module Sync {

  import opened Wrappers
  import opened Js
  import opened JsFacts
  import opened ScheduleStore
  import opened FeederServer
  import opened ServerProperties
  import opened Agendamento

  /** What the server's JSON parser makes of one element the screen sends:
      every property present except `peso`. */
  function ToIncoming(req: SaveRequest): (e: Incoming)
    ensures EntryValid(e) <==> req.id != "" && req.hora != ""
    ensures KeyOf(e) == req.id
  {
    Incoming(Some(JStr(req.id)), Some(JStr(req.hora)), Some(JBool(req.hasAutomatico)), None, Some(JBool(req.enabled)))
  }

  /** The body of the screen's save request. */
  function SaveBatch(times: seq<TimeSlot>, autoRefill: bool): (es: seq<Incoming>)
    ensures |es| == |times|
    ensures forall i :: 0 <= i < |times| ==> KeyOf(es[i]) == IntToString(i + 1)
    ensures forall i :: 0 <= i < |times| ==> (EntryValid(es[i]) <==> times[i].time != "")
  {
    var reqs := ToSaveRequests(times, autoRefill);
    seq(|reqs|, i requires 0 <= i < |reqs| => ToIncoming(reqs[i]))
  }

  /** The record the server stores for slot `i` of a save. */
  function SlotRecord(slot: TimeSlot, autoRefill: bool): Record {
    Record(JStr(slot.time), autoRefill, None, Some(JBool(slot.enabled)))
  }

  /** The stored ids `"1"` .. `"n"`. */
  function SlotKeys(n: nat): set<string> {
    set d: nat | 1 <= d <= n :: IntToString(d)
  }

  lemma IntToStringInjective(a: int, b: int)
    requires IntToString(a) == IntToString(b)
    ensures a == b
  {
    ParseIntOfIntToStringExact(a);
    ParseIntOfIntToStringExact(b);
  }

  /** The screen's save sends the ids `"1"` .. `"N"`, which the route reads
      back as the numbers 1 .. N. */
  lemma SaveBatchIds(times: seq<TimeSlot>, autoRefill: bool)
    ensures forall i :: 0 <= i < |times| ==> KeyOf(SaveBatch(times, autoRefill)[i]) == IntToString(i + 1)
    ensures forall i :: 0 <= i < |times| ==> IdNumbers(SaveBatch(times, autoRefill))[i] == Finite(i + 1)
  {
    var es := SaveBatch(times, autoRefill);
    forall i | 0 <= i < |times|
      ensures IdNumbers(es)[i] == Finite(i + 1)
    {
      assert ToStr(es[i].id) == IntToString(i + 1);
      ParseIntOfIntToStringExact(i + 1);
    }
  }

  /** The bound of the route's delete for a save of N slots: `"N"`, or
      `"-Infinity"` when the list is empty. */
  lemma SaveBatchBound(times: seq<TimeSlot>, autoRefill: bool)
    ensures PruneBound(SaveBatch(times, autoRefill)) == if |times| == 0 then "-Infinity" else IntToString(|times|)
  {
    var xs := IdNumbers(SaveBatch(times, autoRefill));
    SaveBatchIds(times, autoRefill);
    if |times| > 0 {
      MaxOfOneToN(xs);
    }
  }

  /** `Math.max(1, 2, ..., N)` is N. */
  lemma MaxOfOneToN(xs: seq<Num>)
    requires xs != [] && forall i :: 0 <= i < |xs| ==> xs[i] == Finite(i + 1)
    ensures MaxOf(xs) == Finite(|xs|)
  {
    var m := MaxOf(xs);
    assert xs[|xs| - 1].Finite?;
    assert !m.NaN? && !m.NegInfinity?;
    var k :| 0 <= k < |xs| && xs[k] == m;
  }

  /** With at most nine slots, the delete keeps exactly the stored one-digit
      ids up to N. */
  lemma PruneSlotKeys(entries: map<string, Record>, times: seq<TimeSlot>, autoRefill: bool)
    requires |times| <= 9 && entries.Keys <= SlotKeys(9)
    ensures Prune(entries, PruneBound(SaveBatch(times, autoRefill))).Keys == entries.Keys * SlotKeys(|times|)
  {
    PruneWithinSlots(entries, times, autoRefill);
    PruneKeepsSlots(entries, times, autoRefill);
  }

  /** The delete removes every stored id above N. */
  lemma PruneWithinSlots(entries: map<string, Record>, times: seq<TimeSlot>, autoRefill: bool)
    requires |times| <= 9 && entries.Keys <= SlotKeys(9)
    ensures Prune(entries, PruneBound(SaveBatch(times, autoRefill))).Keys <= SlotKeys(|times|)
  {
    var bound := PruneBound(SaveBatch(times, autoRefill));
    SaveBatchBound(times, autoRefill);
    forall k | k in Prune(entries, bound)
      ensures k in SlotKeys(|times|)
    {
      var d: nat :| 1 <= d <= 9 && k == IntToString(d);
      SingleDigitString(d);
      if |times| == 0 {
        DigitLedAfterNegInfinity(k);
      } else {
        LessOfSingleDigits(|times|, d);
      }
    }
  }

  /** The delete keeps every stored id up to N. */
  lemma PruneKeepsSlots(entries: map<string, Record>, times: seq<TimeSlot>, autoRefill: bool)
    requires |times| <= 9
    ensures entries.Keys * SlotKeys(|times|) <= Prune(entries, PruneBound(SaveBatch(times, autoRefill))).Keys
  {
    var bound := PruneBound(SaveBatch(times, autoRefill));
    SaveBatchBound(times, autoRefill);
    forall k | k in entries && k in SlotKeys(|times|)
      ensures k in Prune(entries, bound)
    {
      var d: nat :| 1 <= d <= |times| && k == IntToString(d);
      SlotSurvives(entries, |times|, d);
    }
  }

  /** A stored id `"d"` with d <= n is not after the bound `"n"`. */
  lemma SlotSurvives(entries: map<string, Record>, n: nat, d: nat)
    requires 1 <= d <= n <= 9 && IntToString(d) in entries
    ensures IntToString(d) in Prune(entries, IntToString(n))
  {
    LessOfSingleDigits(n, d);
  }

  /** Every element of the save is a valid entry when every slot has a time. */
  lemma SaveBatchValid(times: seq<TimeSlot>, autoRefill: bool)
    requires forall i :: 0 <= i < |times| ==> times[i].time != ""
    ensures forall i :: 0 <= i < |times| ==> EntryValid(SaveBatch(times, autoRefill)[i])
  {
  }

  /** The batch's ids are exactly `"1"` .. `"N"`. */
  lemma SaveBatchKeys(times: seq<TimeSlot>, autoRefill: bool)
    ensures BatchKeys(SaveBatch(times, autoRefill)) == SlotKeys(|times|)
  {
    var es := SaveBatch(times, autoRefill);
    SaveBatchIds(times, autoRefill);
    forall k
      ensures k in BatchKeys(es) <==> k in SlotKeys(|times|)
    {
      BatchKeysContains(es, k);
      if k in SlotKeys(|times|) {
        var d: nat :| 1 <= d <= |times| && k == IntToString(d);
        assert KeyOf(es[d - 1]) == k;
      }
    }
  }

  /** No two entries of the batch share an id. */
  lemma SaveBatchLastWithKey(times: seq<TimeSlot>, autoRefill: bool, i: nat)
    requires i < |times|
    ensures LastWithKey(SaveBatch(times, autoRefill), i)
  {
    var es := SaveBatch(times, autoRefill);
    SaveBatchIds(times, autoRefill);
    forall j | i < j < |times|
      ensures KeyOf(es[j]) != KeyOf(es[i])
    {
      if IntToString(j + 1) == IntToString(i + 1) {
        IntToStringInjective(j + 1, i + 1);
      }
    }
  }

  /** A save of up to nine set slots, over a collection holding only the
      screen's own ids, answers 200 with one document per slot and leaves
      exactly the ids `"1"` .. `"N"`: slots removed on the screen disappear
      from the collection. */
  lemma ClientSaveReplacesSchedule(entries: map<string, Record>, times: seq<TimeSlot>, autoRefill: bool)
    requires |times| <= 9 && entries.Keys <= SlotKeys(9)
    requires forall i :: 0 <= i < |times| ==> times[i].time != ""
    ensures var r := SaveEffect(entries, Batch(SaveBatch(times, autoRefill)));
            r.reply.Saved? && |r.reply.results| == |times| && r.entries.Keys == SlotKeys(|times|)
  {
    var es := SaveBatch(times, autoRefill);
    SaveBatchValid(times, autoRefill);
    SaveAllValidReply(entries, es);
    SaveAllValidKeys(entries, es);
    SaveBatchKeys(times, autoRefill);
    PruneSlotKeys(entries, times, autoRefill);
    UnionOfSubset(Prune(entries, PruneBound(es)).Keys, SlotKeys(|times|));
  }

  lemma UnionOfSubset(a: set<string>, b: set<string>)
    requires a <= b
    ensures a + b == b
  {
  }

  /** After any save in which every slot has a time, the id `"i + 1"` holds
      slot `i`'s time and switch, stamped with the save's auto-refill. */
  lemma ClientSaveStoresSlot(entries: map<string, Record>, times: seq<TimeSlot>, autoRefill: bool, i: nat)
    requires forall i :: 0 <= i < |times| ==> times[i].time != ""
    requires i < |times|
    ensures var r := SaveEffect(entries, Batch(SaveBatch(times, autoRefill)));
            IntToString(i + 1) in r.entries && r.entries[IntToString(i + 1)] == SlotRecord(times[i], autoRefill)
  {
    var es := SaveBatch(times, autoRefill);
    SaveBatchValid(times, autoRefill);
    SaveBatchIds(times, autoRefill);
    SaveBatchLastWithKey(times, autoRefill, i);
    assert RecordOf(es[i]) == SlotRecord(times[i], autoRefill);
    SaveAllValidLastWins(entries, es, i);
  }

  /** Saving an empty list empties a collection of the screen's ids. */
  lemma ClientSaveOfNothing(entries: map<string, Record>, autoRefill: bool)
    requires entries.Keys <= SlotKeys(9)
    ensures SaveEffect(entries, Batch(SaveBatch([], autoRefill))) == SaveOutcome(map[], Saved([]))
  {
    ClientSaveReplacesSchedule(entries, [], autoRefill);
    assert SlotKeys(0) == {};
  }

  /** A slot whose time was never picked makes the route answer 400, but
      only after the delete and the upserts of the slots before it. */
  lemma ClientSaveWithUnsetSlot(entries: map<string, Record>, times: seq<TimeSlot>, autoRefill: bool, j: nat)
    requires j < |times| && times[j].time == ""
    requires forall i :: 0 <= i < j ==> times[i].time != ""
    ensures var es := SaveBatch(times, autoRefill);
            var r := SaveEffect(entries, Batch(es));
            r.reply == InvalidData && r.entries == Upserts(Prune(entries, PruneBound(es)), es[..j]).entries
  {
    var es := SaveBatch(times, autoRefill);
    SaveStopsAtInvalid(entries, es, j);
  }

  /** Every picker option passes the `hora` schema pattern. */
  lemma TimeOptionsMatchHora(k: nat)
    requires k < 96
    ensures HoraPattern(TimeOptionValue(k))
  {
    var hour, minute := k / 4, k % 4 * 15;
    TimeOptionShape(k);
    ClockMatchesHora(hour, minute);
  }

  /** A clock time with an hour below 24 and a minute below 60 passes the pattern. */
  lemma ClockMatchesHora(hour: nat, minute: nat)
    requires hour < 24 && minute < 60
    ensures HoraPattern(Clock(hour, minute))
  {
    DigitCharBounds(hour / 10, 2);
    DigitCharBounds(minute / 10, 5);
    DigitCharBounds(hour % 10, 9);
    DigitCharBounds(minute % 10, 9);
  }

  lemma DigitCharBounds(d: nat, top: nat)
    requires d <= top < 10
    ensures '0' <= DigitChar(d) <= DigitChar(top) && IsDecimalDigit(DigitChar(d))
  {
  }

  /** The pattern is looser than a clock: it admits hour 29, and it refuses
      the unset time `""`. */
  lemma HoraPatternBounds()
    ensures HoraPattern("29:00")
    ensures !HoraPattern("")
  {
  }

  /** The message the auto-refill switch sends: `{autoRefill: checked}`. */
  function ToggleMessage(checked: bool): Message {
    Parsed(None, Some(JBool(checked)), None)
  }

  /** The server takes the switch's value and broadcasts once, level unchanged. */
  lemma ToggleSetsAutoRefill(s: FeederState, checked: bool)
    ensures var r := MessageEffect(s, ToggleMessage(checked));
            r.state == FeederState(s.level, JBool(checked)) && r.sent == [Snapshot(s.level, JBool(checked))]
  {
  }

  /** The message sent after a successful save, `{agendamentos: [...]}`,
      has none of the properties the handler reads, so it changes nothing. */
  lemma SavedListMessageIsIgnored(s: FeederState)
    ensures MessageEffect(s, Parsed(None, None, None)) == Effect(s, [])
  {
  }
}
