/** What the feeder server's handlers guarantee, proved about the functions
    the handler methods of FeederServer.Feeder are tied to. */
module ServerProperties {

  import opened Wrappers
  import opened Js
  import opened JsFacts
  import opened ScheduleStore
  import opened FeederServer

  // ---------------------------------------------------------------------
  // The level stays a percentage

  /** Everything that reaches the server and may change the feeder state. */
  datatype Input =
    | WsMessage(m: Message)
    | SetFoodLevelRequest(level: Option<JsonValue>)
    | SaveRequest(body: SaveBody)

  function Step(s: FeederState, input: Input): FeederState {
    match input
    case WsMessage(m) => MessageEffect(s, m).state
    case SetFoodLevelRequest(level) => SetFoodLevelEffect(s, level).state
    case SaveRequest(_) => s
  }

  /** The feeder state after the inputs, handled in order. */
  function Run(s: FeederState, inputs: seq<Input>): FeederState
    decreases |inputs|
  {
    if inputs == [] then s else Step(Run(s, inputs[..|inputs| - 1]), inputs[|inputs| - 1])
  }

  /** From a level in [0, 100], every sequence of messages and requests
      keeps the level in [0, 100]. */
  lemma {:induction false} RunKeepsLevelInRange(s: FeederState, inputs: seq<Input>)
    requires InRange(s.level)
    ensures InRange(Run(s, inputs).level)
    decreases |inputs|
  {
    if inputs != [] {
      RunKeepsLevelInRange(s, inputs[..|inputs| - 1]);
    }
  }

  /** In particular from the start state (level 50). */
  lemma ReachableLevelInRange(inputs: seq<Input>)
    ensures InRange(Run(Initial, inputs).level)
  {
    RunKeepsLevelInRange(Initial, inputs);
  }

  // ---------------------------------------------------------------------
  // WebSocket `level`

  /** A numeric `level` is taken exactly when it lies in [0, 100]. */
  lemma NumericLevel(n: int)
    ensures RequestedLevel(JNum(n)) == if InRange(n) then Some(n) else None
  {
    ParseIntOfIntToStringExact(n);
  }

  /** A text `level` that starts with a number and goes on with other text,
      such as `"20 gramas"`, sets the level to that number when it is in
      [0, 100]. */
  lemma TextLevel(n: int, rest: string)
    requires rest == [] || !IsDecimalDigit(rest[0])
    requires n == 0 && rest != [] ==> rest[0] != 'x' && rest[0] != 'X'
    ensures RequestedLevel(JStr(IntToString(n) + rest)) == if InRange(n) then Some(n) else None
  {
    ParseIntOfIntToString(n, rest);
  }

  lemma TwentyGramasSetsTwenty(s: FeederState)
    ensures MessageEffect(s, Parsed(Some(JStr("20 gramas")), None, None))
            == Effect(s.(level := 20), [Snapshot(20, s.autoRefill)])
  {
    TwentyGramasReadsTwenty();
    LevelStepTaken(Effect(s, []), JStr("20 gramas"), 20);
  }

  lemma TwentyGramasReadsTwenty()
    ensures RequestedLevel(JStr("20 gramas")) == Some(20)
  {
    assert IntToString(20) == "20" by {
      assert NatToString(2) == "2";
    }
    assert "20" + " gramas" == "20 gramas";
    TextLevel(20, " gramas");
  }

  /** `"abc"` has no digits and `"150"` is out of range: neither is taken. */
  lemma RejectedLevelTexts()
    ensures RequestedLevel(JStr("abc")) == None
    ensures RequestedLevel(JStr("150")) == None
  {
    NoDigitsIsNaN();
    OneFiftyReadsBack();
  }

  lemma NoDigitsIsNaN()
    ensures ParseInt("abc") == NaN
  {
    assert "abc"[0] == 'a';
    ParseIntOfNonDigit("abc");
  }

  lemma OneFiftyReadsBack()
    ensures ParseInt("150") == Finite(150)
  {
    assert IntToString(150) == "150" by {
      assert NatToString(15) == "15" by {
        assert NatToString(1) == "1";
      }
    }
    ParseIntOfIntToStringExact(150);
  }

  /** A message that `JSON.parse` rejects changes nothing and broadcasts nothing. */
  lemma UnparsableIsIgnored(s: FeederState)
    ensures MessageEffect(s, Unparsable) == Effect(s, [])
  {
  }

  /** A `level` that is not taken changes nothing and broadcasts nothing. */
  lemma RejectedLevelIsIgnored(s: FeederState, v: JsonValue)
    requires RequestedLevel(v).None?
    ensures MessageEffect(s, Parsed(Some(v), None, None)) == Effect(s, [])
  {
  }

  // ---------------------------------------------------------------------
  // `dispenseFood` and the order of the handler

  /** `dispenseFood` raises the level by 20, capped at 100, with one broadcast. */
  lemma DispenseFood(s: FeederState)
    ensures var r := MessageEffect(s, Parsed(None, None, Some(JStr("dispenseFood"))));
            r.state == s.(level := if s.level + 20 <= 100 then s.level + 20 else 100)
            && r.sent == [SnapshotOf(r.state)]
  {
  }

  /** Dispensing leaves a level in [0, 100] unchanged only at the cap. */
  lemma DispenseFixedOnlyAtCap(level: int)
    requires InRange(level)
    ensures Dispensed(level) == level <==> level == MaxLevel
  {
  }

  /** A message carrying all three: `level` first, then `autoRefill` (any
      JSON value, boolean or not), then the dispense, each followed by a
      broadcast of the state at that point. */
  lemma HandlerOrder(s: FeederState, level: JsonValue, autoRefill: JsonValue)
    requires RequestedLevel(level).Some?
    ensures var n := RequestedLevel(level).value;
            var r := MessageEffect(s, Parsed(Some(level), Some(autoRefill), Some(JStr("dispenseFood"))));
            r.state == FeederState(Dispensed(n), autoRefill)
            && r.sent == [Snapshot(n, s.autoRefill), Snapshot(n, autoRefill), Snapshot(Dispensed(n), autoRefill)]
  {
    var n := RequestedLevel(level).value;
    var e1 := Effect(s.(level := n), [Snapshot(n, s.autoRefill)]);
    LevelStepTaken(Effect(s, []), level, n);
    assert LevelStep(Effect(s, []), Some(level)) == e1;
    MessageEffectOfParsed(s, Some(level), Some(autoRefill), Some(JStr("dispenseFood")));
    AutoRefillThenDispense(e1, autoRefill);
    ThreeInOrder(Snapshot(n, s.autoRefill), Snapshot(n, autoRefill), Snapshot(Dispensed(n), autoRefill));
  }

  /** A parsed message runs the three branches in order. */
  lemma MessageEffectOfParsed(s: FeederState, level: Option<JsonValue>, autoRefill: Option<JsonValue>, action: Option<JsonValue>)
    ensures MessageEffect(s, Parsed(level, autoRefill, action))
         == ActionStep(AutoRefillStep(LevelStep(Effect(s, []), level), autoRefill), action)
  {
  }

  lemma ThreeInOrder(a: Snapshot, b: Snapshot, c: Snapshot)
    ensures [a] + [b, c] == [a, b, c]
  {
  }

  /** After the `level` branch, `autoRefill` and then the dispense are each
      applied and broadcast. */
  lemma AutoRefillThenDispense(e: Effect, v: JsonValue)
    ensures var r := ActionStep(AutoRefillStep(e, Some(v)), Some(JStr("dispenseFood")));
            r.state == FeederState(Dispensed(e.state.level), v)
            && r.sent == e.sent + [Snapshot(e.state.level, v), Snapshot(Dispensed(e.state.level), v)]
  {
    var e2 := Apply(e, e.state.(autoRefill := v));
    assert AutoRefillStep(e, Some(v)) == e2;
    assert e2.sent + [SnapshotOf(e2.state.(level := Dispensed(e.state.level)))]
        == e.sent + [Snapshot(e.state.level, v), Snapshot(Dispensed(e.state.level), v)];
  }

  /** A `level` that is taken is applied and broadcast. */
  lemma LevelStepTaken(e: Effect, v: JsonValue, n: int)
    requires RequestedLevel(v) == Some(n)
    ensures LevelStep(e, Some(v)) == Apply(e, e.state.(level := n))
  {
  }

  /** A message whose `level` is not taken still applies `autoRefill` and the
      dispense. */
  lemma RejectedLevelDoesNotStopTheRest(s: FeederState, level: JsonValue, autoRefill: JsonValue)
    requires RequestedLevel(level).None?
    ensures var r := MessageEffect(s, Parsed(Some(level), Some(autoRefill), Some(JStr("dispenseFood"))));
            r.state == FeederState(Dispensed(s.level), autoRefill)
            && r.sent == [Snapshot(s.level, autoRefill), Snapshot(Dispensed(s.level), autoRefill)]
  {
  }

  // ---------------------------------------------------------------------
  // The save loop

  /** The stored ids the entries of `es` select. */
  function BatchKeys(es: seq<Incoming>): set<string>
    decreases |es|
  {
    if es == [] then {} else BatchKeys(es[..|es| - 1]) + {KeyOf(es[|es| - 1])}
  }

  lemma {:induction false} BatchKeysContains(es: seq<Incoming>, k: string)
    ensures k in BatchKeys(es) <==> exists i :: 0 <= i < |es| && KeyOf(es[i]) == k
    decreases |es|
  {
    if es != [] {
      var n := |es| - 1;
      var front := es[..n];
      BatchKeysContains(front, k);
      if k in BatchKeys(front) {
        var i :| 0 <= i < n && KeyOf(front[i]) == k;
        assert KeyOf(es[i]) == k;
      }
      if exists i :: 0 <= i < |es| && KeyOf(es[i]) == k {
        var i :| 0 <= i < |es| && KeyOf(es[i]) == k;
        if i < n {
          assert KeyOf(front[i]) == k;
        }
      }
    }
  }

  /** No later entry of `es` has the same stored id as entry `i`. */
  predicate LastWithKey(es: seq<Incoming>, i: int)
    requires 0 <= i < |es|
  {
    forall j :: i < j < |es| ==> KeyOf(es[j]) != KeyOf(es[i])
  }

  /** The upsert loop over valid entries adds the batch's ids. */
  lemma {:induction false} UpsertsOfValid(entries: map<string, Record>, es: seq<Incoming>)
    requires forall i :: 0 <= i < |es| ==> EntryValid(es[i])
    ensures !Upserts(entries, es).rejected
    ensures Upserts(entries, es).entries.Keys == entries.Keys + BatchKeys(es)
    decreases |es|
  {
    if es != [] {
      var n := |es| - 1;
      var front := es[..n];
      assert forall i :: 0 <= i < n ==> front[i] == es[i];
      UpsertsOfValid(entries, front);
      UpsertsAcceptAt(entries, es, n);
      assert es[..n + 1] == es;
    }
  }

  /** The upsert loop over valid entries leaves every id outside the batch
      as it was. */
  lemma {:induction false} UpsertsKeepOthers(entries: map<string, Record>, es: seq<Incoming>)
    requires forall i :: 0 <= i < |es| ==> EntryValid(es[i])
    ensures forall k :: k in entries && k !in BatchKeys(es)
                    ==> k in Upserts(entries, es).entries && Upserts(entries, es).entries[k] == entries[k]
    decreases |es|
  {
    if es != [] {
      var n := |es| - 1;
      var front := es[..n];
      PrefixUpsertsAccepted(entries, es, n);
      assert forall i :: 0 <= i < n ==> front[i] == es[i];
      UpsertsKeepOthers(entries, front);
      UpsertsAcceptAt(entries, es, n);
      assert es[..n + 1] == es;
    }
  }

  /** Each id of a batch of valid entries ends up holding the fields of the
      last entry with that id. */
  lemma {:induction false} UpsertsLastWins(entries: map<string, Record>, es: seq<Incoming>, i: nat)
    requires forall i :: 0 <= i < |es| ==> EntryValid(es[i])
    requires i < |es| && LastWithKey(es, i)
    ensures KeyOf(es[i]) in Upserts(entries, es).entries
    ensures Upserts(entries, es).entries[KeyOf(es[i])] == RecordOf(es[i])
    decreases |es|
  {
    var n := |es| - 1;
    var front := es[..n];
    PrefixUpsertsAccepted(entries, es, n);
    UpsertsAcceptAt(entries, es, n);
    assert es[..n + 1] == es;
    if i < n {
      assert LastWithKey(front, i);
      UpsertsLastWins(entries, front, i);
      assert KeyOf(es[n]) != KeyOf(es[i]);
    }
  }

  /** A save in which every entry is valid answers 200 with one document per
      entry, in the order received. */
  lemma SaveAllValidReply(entries: map<string, Record>, es: seq<Incoming>)
    requires forall i :: 0 <= i < |es| ==> EntryValid(es[i])
    ensures SaveEffect(entries, Batch(es)).reply.Saved?
    ensures |SaveEffect(entries, Batch(es)).reply.results| == |es|
    ensures forall i :: 0 <= i < |es| ==> SaveEffect(entries, Batch(es)).reply.results[i] == DocumentOf(es[i])
  {
    var pruned := Prune(entries, PruneBound(es));
    UpsertsOfValid(pruned, es);
    var p := Upserts(pruned, es);
    assert SaveEffect(entries, Batch(es)) == SaveOutcome(p.entries, Saved(p.results));
  }

  lemma SaveEntriesOfBatch(entries: map<string, Record>, es: seq<Incoming>)
    ensures SaveEffect(entries, Batch(es)).entries == Upserts(Prune(entries, PruneBound(es)), es).entries
  {
  }

  /** After a save in which every entry is valid, the stored ids are those
      the delete kept and those of the batch. */
  lemma SaveAllValidKeys(entries: map<string, Record>, es: seq<Incoming>)
    requires forall i :: 0 <= i < |es| ==> EntryValid(es[i])
    ensures SaveEffect(entries, Batch(es)).entries.Keys == Prune(entries, PruneBound(es)).Keys + BatchKeys(es)
  {
    SaveEntriesOfBatch(entries, es);
    UpsertsOfValid(Prune(entries, PruneBound(es)), es);
  }

  /** After a save in which every entry is valid, each id of the batch holds
      the fields of the last entry with that id. */
  lemma SaveAllValidLastWins(entries: map<string, Record>, es: seq<Incoming>, i: nat)
    requires forall i :: 0 <= i < |es| ==> EntryValid(es[i])
    requires i < |es| && LastWithKey(es, i)
    ensures KeyOf(es[i]) in SaveEffect(entries, Batch(es)).entries
    ensures SaveEffect(entries, Batch(es)).entries[KeyOf(es[i])] == RecordOf(es[i])
  {
    SaveEntriesOfBatch(entries, es);
    UpsertsLastWins(Prune(entries, PruneBound(es)), es, i);
  }

  /** After a save in which every entry is valid, the stored ids are those of
      the batch and the old ones that do not sort after the bound; a stored id
      that sorts after the bound and is not in the batch is gone, and any
      other id outside the batch keeps its fields. */
  lemma SaveAllValidKeeps(entries: map<string, Record>, es: seq<Incoming>)
    requires forall i :: 0 <= i < |es| ==> EntryValid(es[i])
    ensures forall k :: k in SaveEffect(entries, Batch(es)).entries
                    <==> k in BatchKeys(es) || (k in entries && !Less(PruneBound(es), k))
    ensures forall k :: k in entries && k !in BatchKeys(es) && !Less(PruneBound(es), k)
                    ==> k in SaveEffect(entries, Batch(es)).entries && SaveEffect(entries, Batch(es)).entries[k] == entries[k]
  {
    var pruned := Prune(entries, PruneBound(es));
    SaveEntriesOfBatch(entries, es);
    UpsertsOfValid(pruned, es);
    UpsertsKeepOthers(pruned, es);
  }

  /** A save that meets an invalid entry answers 400, but only after the
      delete has run and every entry before the invalid one has been
      upserted; nothing from the invalid entry on is applied. */
  lemma SaveStopsAtInvalid(entries: map<string, Record>, es: seq<Incoming>, j: nat)
    requires j < |es| && !EntryValid(es[j])
    requires forall i :: 0 <= i < j ==> EntryValid(es[i])
    ensures SaveEffect(entries, Batch(es)).reply == InvalidData
    ensures SaveEffect(entries, Batch(es)).entries == Upserts(Prune(entries, PruneBound(es)), es[..j]).entries
  {
    UpsertsStopAt(Prune(entries, PruneBound(es)), es, j);
    SaveEffectOfBatch(entries, es);
  }

  /** The upserts stop at the first invalid entry. */
  lemma UpsertsStopAt(entries: map<string, Record>, es: seq<Incoming>, j: nat)
    requires j < |es| && !EntryValid(es[j])
    requires forall i :: 0 <= i < j ==> EntryValid(es[i])
    ensures Upserts(entries, es) == Upserts(entries, es[..j]).(rejected := true)
  {
    PrefixUpsertsAccepted(entries, es, j);
    UpsertsRejectAt(entries, es, j);
    UpsertsStayRejected(entries, es, j + 1);
  }

  /** A batch is pruned and then upserted. */
  lemma SaveEffectOfBatch(entries: map<string, Record>, es: seq<Incoming>)
    ensures var p := Upserts(Prune(entries, PruneBound(es)), es);
            SaveEffect(entries, Batch(es)) == SaveOutcome(p.entries, if p.rejected then InvalidData else Saved(p.results))
  {
  }

  /** The ids left after a save stopped at entry `j`: those of the entries
      before it, and the stored ones the delete kept. */
  lemma SaveStopsAtInvalidKeys(entries: map<string, Record>, es: seq<Incoming>, j: nat)
    requires j < |es| && !EntryValid(es[j])
    requires forall i :: 0 <= i < j ==> EntryValid(es[i])
    ensures forall k :: k in SaveEffect(entries, Batch(es)).entries
                    <==> k in BatchKeys(es[..j]) || (k in entries && !Less(PruneBound(es), k))
  {
    SaveStopsAtInvalid(entries, es, j);
    PrefixUpsertsKeys(Prune(entries, PruneBound(es)), es, j);
  }

  lemma PrefixUpsertsKeys(entries: map<string, Record>, es: seq<Incoming>, j: nat)
    requires j <= |es|
    requires forall i :: 0 <= i < j ==> EntryValid(es[i])
    ensures Upserts(entries, es[..j]).entries.Keys == entries.Keys + BatchKeys(es[..j])
  {
    assert forall i :: 0 <= i < j ==> es[..j][i] == es[i];
    UpsertsOfValid(entries, es[..j]);
  }

  lemma PrefixUpsertsAccepted(entries: map<string, Record>, es: seq<Incoming>, j: nat)
    requires j <= |es|
    requires forall i :: 0 <= i < j ==> EntryValid(es[i])
    ensures !Upserts(entries, es[..j]).rejected
  {
    assert forall i :: 0 <= i < j ==> es[..j][i] == es[i];
    UpsertsOfValid(entries, es[..j]);
  }

  /** When the first entry is invalid the delete has still run. */
  lemma SaveRejectedFirstEntryStillPrunes(entries: map<string, Record>, es: seq<Incoming>)
    requires es != [] && !EntryValid(es[0])
    ensures SaveEffect(entries, Batch(es)) == SaveOutcome(Prune(entries, PruneBound(es)), InvalidData)
  {
    SaveStopsAtInvalid(entries, es, 0);
  }

  /** An empty batch: `Math.max()` is -Infinity, every id that starts with a
      digit sorts after `"-Infinity"`, and so all of them are deleted. */
  lemma EmptyBatchDeletesDigitIds(entries: map<string, Record>)
    ensures var r := SaveEffect(entries, Batch([]));
            && r.reply == Saved([])
            && (forall k :: k in r.entries ==> k in entries && !(k != [] && IsDecimalDigit(k[0])))
  {
    EmptyBatchBound();
    SaveEffectOfBatch(entries, []);
    forall k | k != [] && IsDecimalDigit(k[0]) {
      DigitLedAfterNegInfinity(k);
    }
  }

  lemma EmptyBatchBound()
    ensures PruneBound([]) == "-Infinity"
  {
    assert MaxOf(IdNumbers([])) == NegInfinity;
  }

  /** A batch with an id `parseInt` cannot read makes the bound `"NaN"`, and
      then no stored id that starts with a digit is deleted. */
  lemma UnreadableIdKeepsDigitIds(entries: map<string, Record>, es: seq<Incoming>, j: nat)
    requires j < |es| && ParseInt(ToStr(es[j].id)).NaN?
    ensures PruneBound(es) == "NaN"
    ensures forall k :: k in entries && k != [] && IsDecimalDigit(k[0]) ==> k in Prune(entries, PruneBound(es))
  {
    UnreadableIdBound(es, j);
    forall k | k != [] && IsDecimalDigit(k[0]) {
      DigitLedNotAfterNaN(k);
    }
  }

  lemma UnreadableIdBound(es: seq<Incoming>, j: nat)
    requires j < |es| && ParseInt(ToStr(es[j].id)).NaN?
    ensures PruneBound(es) == "NaN"
  {
    assert IdNumbers(es)[j].NaN?;
  }

  /** The delete compares strings: with bound `"3"`, `"4"` goes but `"10"` stays. */
  lemma PruneIsLexicographic(entries: map<string, Record>)
    requires "4" in entries && "10" in entries
    ensures "4" !in Prune(entries, "3")
    ensures "10" in Prune(entries, "3")
  {
    assert "3"[0] < "4"[0];
    assert "10"[0] < "3"[0];
  }
}
