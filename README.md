# PetSync feeder: a Dafny model of the state and schedule core

PetSync is a pet feeder whose web screen and server share two pieces of live
state and one stored schedule:

- the bowl's food level, a percentage;
- the auto-refill flag;
- a stored list of feeding times.

This project models the two places where that state is changed:

- **The feeder server** (`server/server.js`).
  - The process holds the food level, starting at 50, and the auto-refill flag, starting false.
  - It changes them from two inputs and nothing else: the WebSocket `message` handler, whose three branches read `level`, `autoRefill` and `action: "dispenseFood"`; and `POST /api/setFoodLevel`.
  - After each change it broadcasts `{level, autoRefill}`. A newly connected client receives the same payload.
  - `POST /api/salvarAgendamento` reconciles the stored schedule. It deletes the stored entries whose id string sorts after `max(parseInt(id)).toString()`. It then checks and upserts the incoming entries one by one. It can stop half-way with a 400, after earlier upserts have already been applied.
- **The schedule screen** (`client/pet-sync/src/components/Agendamento.tsx`).
  - It builds the time picker's 96 quarter-hour options.
  - It edits the slot list: add, remove and update a slot, and switch every slot off when auto-refill turns on.
  - It renumbers the slots `"1"`..`"N"` by position when saving, and reads them back with `parseInt` when loading.

The JavaScript the core relies on is modelled exactly where it matters (module `Js`):

- `parseInt`: white space, sign, a `0x` prefix, leading digits, or NaN;
- `Number.prototype.toString` on integers;
- `Math.max`, where NaN wins and no argument gives -Infinity;
- `String(v)`, truthiness, and `===` on numbers, where NaN equals nothing;
- the string order the database's `$gt` uses. This is code-point order, which for UTF-8 is byte order.

The database collection is a `map` from the entry's `id` string to its other fields (module `ScheduleStore`):

- `deleteMany({id: {$gt: s}})` keeps the keys that do not sort after `s`;
- `findOneAndUpdate(..., {upsert: true})` is a map update.

The server is a class `Feeder` with fields for the level and the flag, plus the collection object:

- Each handler is a method proved equal to a function of the old state.
- The save handler keeps the route's `for` loop, with its early exit.
- The screen's list operations are functions over `seq`. The time options are built by nested loops.

In a few places the code, and so the model, does something one might not expect:

- The level is a percentage from 0 to 100 and starts at 50.
- A dispense adds 20 and is capped at 100.
- There is no gram scale, no fill action and no other event type.
- The save deletes before it validates anything, and it is not atomic.
- The delete compares ids as strings, not as numbers.

## Model

| member | source | states |
|---|---|---|
| Js.TrimStart | server/server.js:34 | `parseInt` skips exactly the leading white space (ECMAScript WhiteSpace and LineTerminator): what remains is a suffix, starts with a non-space, and everything dropped was space |
| Js.LeadingDigits | server/server.js:34 | the digits `parseInt` reads are the longest prefix of digits of the radix |
| Js.DigitValue | server/server.js:34 | a digit's value is below its radix |
| Js.ParseInt | server/server.js:34 | `parseInt` gives a finite integer or NaN, never -Infinity |
| Js.NatToString | server/server.js:136 | the decimal form of a natural number is non-empty digits, has no leading zero, and has one digit exactly below 10 |
| Js.IntToString | server/server.js:136 | `toString` of an integer is non-empty and starts with `-` exactly for negatives |
| Js.MaxOf | server/server.js:132 | `Math.max(...xs)` is NaN exactly when some argument is NaN, -Infinity exactly when every argument is (so for no argument), and otherwise one of the arguments and at least every finite one |
| JsFacts.LessIrreflexive | server/server.js:134-138 | no id sorts after itself |
| JsFacts.LessTransitive | server/server.js:134-138 | the string order of `$gt` is transitive |
| JsFacts.LessAt | server/server.js:134-138 | strings that agree up to a position are ordered by their characters there |
| JsFacts.LessImpliesDifferent | server/server.js:134-138 | strings in the order are different |
| JsFacts.DigitsValueAppend | server/server.js:34 | one more digit multiplies the value read so far by the radix and adds the digit |
| JsFacts.NatToStringValue | server/server.js:34 | reading back the digits `toString` writes gives the number |
| JsFacts.LeadingDigitsOfDigits | server/server.js:34 | `parseInt` stops exactly at the first non-digit |
| JsFacts.UnsignedValueOfNat | server/server.js:34 | the unsigned reader returns the number whose digits start the text |
| JsFacts.TrimStartOfNonSpace | server/server.js:34 | text that starts with a non-space is not trimmed |
| JsFacts.StripSignOfDigitLed | server/server.js:34 | one leading `-` is taken as the sign and a digit is not |
| JsFacts.ParseIntOfDigitLed | server/server.js:34 | text starting with a digit reads as a non-negative number |
| JsFacts.ParseIntOfMinus | server/server.js:34 | `-` before digits reads as the negated number |
| JsFacts.ParseIntOfNatToString | server/server.js:34 | `parseInt` reads back the digits of a natural number followed by text that does not continue the number |
| JsFacts.ParseIntOfNegative | server/server.js:34 | `parseInt` reads back `n.toString()` of a negative `n` followed by text that does not continue the number |
| JsFacts.ParseIntOfIntToString | server/server.js:34 | `parseInt` reads back `n.toString()` followed by any text that does not continue the number, as in `"20 gramas"` |
| JsFacts.ParseIntOfIntToStringExact | server/server.js:132 | `parseInt(n.toString()) == n` |
| JsFacts.ParseIntOfNonDigit | server/server.js:34-35 | text that starts with neither white space, a sign nor a digit reads as NaN |
| JsFacts.SingleDigitString | server/server.js:136 | a one-digit number is written as its digit |
| JsFacts.LessOfSingleDigits | server/server.js:134-138 | for one-digit ids the string order is the numeric order |
| JsFacts.DigitLedAfterNegInfinity | server/server.js:132-138 | every id starting with a digit sorts after `"-Infinity"` |
| JsFacts.DigitLedNotAfterNaN | server/server.js:132-138 | no id starting with a digit sorts after `"NaN"` |
| ScheduleStore.Prune | server/server.js:134-138 | after the delete, exactly the stored ids that do not sort after the bound remain, with their fields |
| ScheduleStore.Collection.constructor | server/server.js:120 | the collection starts with the given entries |
| ScheduleStore.Collection.DeleteGreaterThan | server/server.js:134-138 | `deleteMany({id: {$gt: bound}})` leaves the pruned collection |
| ScheduleStore.Collection.Upsert | server/server.js:147-151 | `findOneAndUpdate` with `upsert` sets the id's fields and returns the new document |
| FeederServer.RequestedLevel | server/server.js:33-39 | a `level` is taken exactly when `parseInt` of it is a number from 0 to 100, and the level taken is that number |
| FeederServer.Dispensed | server/server.js:48 | the level after a dispense is `min(level + 20, 100)` |
| FeederServer.LevelStep | server/server.js:33-39 | the `level` branch changes only the level, keeps it in [0, 100], and broadcasts at most once |
| FeederServer.AutoRefillStep | server/server.js:41-44 | the `autoRefill` branch leaves the level alone and broadcasts at most once |
| FeederServer.ActionStep | server/server.js:46-50 | the `dispenseFood` branch changes only the level, keeps it in [0, 100], and broadcasts at most once |
| FeederServer.MessageEffect | server/server.js:28-54 | a message keeps the level in [0, 100], sends at most three broadcasts, changes nothing when it sends none, and its last broadcast is the final state |
| FeederServer.SetFoodLevelEffect | server/server.js:173-187 | accepted exactly for a number in [0, 100]; then only the level changes, one broadcast, and the reply echoes it; otherwise 400 with state and broadcasts untouched |
| FeederServer.IdNumbers | server/server.js:132 | one number per entry, each finite or NaN but never -Infinity, and an id sent as a JSON number reads back as that number |
| FeederServer.NumericIdsReadBack | server/server.js:132 | `parseInt(String(n))` of a numeric id is `n` |
| FeederServer.Upserts | server/server.js:140-154 | the loop stops exactly when some entry is invalid; otherwise every entry was valid and the results are one document per entry, in incoming order |
| FeederServer.SaveEffect | server/server.js:127-161 | a body that is not an array leaves the collection unchanged and answers 500; an array never answers 500 |
| FeederServer.UpsertsRejectAt | server/server.js:143-145 | an invalid entry ends the loop with the earlier upserts kept |
| FeederServer.UpsertsAcceptAt | server/server.js:147-153 | a valid entry is upserted and its document pushed |
| FeederServer.UpsertsStayRejected | server/server.js:144 | after the early return no later entry is looked at |
| FeederServer.Feeder.constructor | server/server.js:15-16 | the server starts at level 50 with auto-refill false |
| FeederServer.Feeder.OnConnect | server/server.js:21-26 | a new client receives the current `{level, autoRefill}` |
| FeederServer.Feeder.HandleMessage | server/server.js:28-54 | the handler leaves the state, and sends the broadcasts, that `MessageEffect` gives |
| FeederServer.Feeder.HandleLevel | server/server.js:33-39 | the `level` branch, imperatively, as `LevelStep` |
| FeederServer.Feeder.HandleAutoRefill | server/server.js:41-44 | the `autoRefill` branch, imperatively, as `AutoRefillStep` |
| FeederServer.Feeder.HandleAction | server/server.js:46-50 | the `dispenseFood` branch, imperatively, as `ActionStep` |
| FeederServer.Feeder.SetFoodLevel | server/server.js:173-187 | the route leaves the state, reply and broadcasts that `SetFoodLevelEffect` gives |
| FeederServer.Feeder.SaveSchedule | server/server.js:127-161 | the route's delete and `for` loop with early return leave the collection and reply that `SaveEffect` gives |
| ServerProperties.RunKeepsLevelInRange | server/server.js:15-187 | any sequence of messages, level requests and saves keeps a level in [0, 100] there |
| ServerProperties.ReachableLevelInRange | server/server.js:15-16 | from the start state, the level is always in [0, 100] |
| ServerProperties.NumericLevel | server/server.js:33-39 | a numeric `level` is taken exactly when it is in [0, 100] |
| ServerProperties.TextLevel | server/server.js:34-35 | a text `level` that starts with an integer is read as that integer |
| ServerProperties.TwentyGramasSetsTwenty | server/server.js:33-39 | `"20 gramas"` sets the level to 20 with one broadcast |
| ServerProperties.TwentyGramasReadsTwenty | server/server.js:34-35 | `"20 gramas"` is taken as the level 20 |
| ServerProperties.RejectedLevelTexts | server/server.js:34-35 | `"abc"` and `"150"` are not taken |
| ServerProperties.NoDigitsIsNaN | server/server.js:34-35 | `parseInt("abc")` is NaN |
| ServerProperties.OneFiftyReadsBack | server/server.js:34-35 | `parseInt("150")` is 150, which is above 100 |
| ServerProperties.UnparsableIsIgnored | server/server.js:29-53 | a message `JSON.parse` rejects changes nothing and broadcasts nothing |
| ServerProperties.RejectedLevelIsIgnored | server/server.js:33-39 | a `level` that is not taken changes nothing and broadcasts nothing |
| ServerProperties.DispenseFood | server/server.js:46-50 | `dispenseFood` adds 20 capped at 100, with one broadcast |
| ServerProperties.DispenseFixedOnlyAtCap | server/server.js:48 | a dispense leaves the level unchanged exactly at 100 |
| ServerProperties.HandlerOrder | server/server.js:33-50 | `level`, then `autoRefill` (any value), then the dispense, each broadcasting the state at that point |
| ServerProperties.LevelStepTaken | server/server.js:33-39 | a `level` that is taken sets the level and broadcasts once |
| ServerProperties.AutoRefillThenDispense | server/server.js:41-50 | after the `level` branch, `autoRefill` is set and broadcast, then the dispense is applied and broadcast |
| ServerProperties.RejectedLevelDoesNotStopTheRest | server/server.js:33-50 | a rejected `level` does not stop the `autoRefill` and dispense branches |
| ServerProperties.BatchKeysContains | server/server.js:147-148 | an id is among the batch's ids exactly when some entry selects it |
| ServerProperties.UpsertsOfValid | server/server.js:140-154 | upserting valid entries runs to the end and adds exactly the batch's ids |
| ServerProperties.UpsertsKeepOthers | server/server.js:140-154 | upserting valid entries leaves every id outside the batch with its fields |
| ServerProperties.UpsertsLastWins | server/server.js:140-154 | each id ends up with the fields of the last entry that has it |
| ServerProperties.SaveAllValidReply | server/server.js:140-156 | a batch of valid entries answers 200 with one document per entry, in incoming order |
| ServerProperties.SaveAllValidKeys | server/server.js:132-156 | after a valid save the stored ids are those the delete kept plus those of the batch |
| ServerProperties.SaveAllValidLastWins | server/server.js:132-156 | after a valid save, each incoming id holds its last entry's `hora`, `hasAutomatico`, `peso` and `enabled` |
| ServerProperties.SaveAllValidKeeps | server/server.js:132-156 | after a valid save, an id is stored exactly when it came in, or was stored and does not sort after the bound; stored ids untouched by the batch keep their fields |
| ServerProperties.SaveStopsAtInvalid | server/server.js:134-145 | an invalid entry answers 400 after the delete and the upserts of the entries before it |
| ServerProperties.SaveStopsAtInvalidKeys | server/server.js:134-145 | after a save stopped at entry `j`, an id is stored exactly when an entry before `j` has it, or it was stored and does not sort after the bound |
| ServerProperties.UpsertsStopAt | server/server.js:140-145 | the loop stops at the first invalid entry with the upserts of the entries before it |
| ServerProperties.PrefixUpsertsAccepted | server/server.js:140-154 | a run of valid entries is not rejected |
| ServerProperties.PrefixUpsertsKeys | server/server.js:140-154 | upserting a run of valid entries adds exactly their ids |
| ServerProperties.SaveRejectedFirstEntryStillPrunes | server/server.js:132-145 | an invalid first entry still leaves the delete in place |
| ServerProperties.EmptyBatchDeletesDigitIds | server/server.js:132-138 | an empty batch (`Math.max()` is -Infinity) deletes every id that starts with a digit |
| ServerProperties.EmptyBatchBound | server/server.js:132-136 | for an empty batch the bound is `"-Infinity"` |
| ServerProperties.UnreadableIdKeepsDigitIds | server/server.js:132-138 | an id `parseInt` cannot read makes the bound `"NaN"`, which deletes no digit-led id |
| ServerProperties.UnreadableIdBound | server/server.js:132-136 | an id `parseInt` cannot read makes the bound `"NaN"` |
| ServerProperties.PruneIsLexicographic | server/server.js:134-138 | with bound `"3"`, id `"4"` is deleted and id `"10"` is kept |
| Agendamento.InitialSlotsShape | client/pet-sync/src/components/Agendamento.tsx:58-60 | the starting list has one slot, switched on, and the next added slot gets id 2 |
| Agendamento.InitialTimeIsOption | client/pet-sync/src/components/Agendamento.tsx:58-60 | the starting slot's time is the picker's 08:00 option |
| Agendamento.PadStart2 | client/pet-sync/src/components/Agendamento.tsx:35-36 | `padStart(2, "0")` keeps text of two or more characters and pads shorter text with leading zeros to two |
| Agendamento.OptionsUpToAt | client/pet-sync/src/components/Agendamento.tsx:32-42 | the `k`-th option pushed is the `k`-th quarter hour's text |
| Agendamento.OptionsUpToNext | client/pet-sync/src/components/Agendamento.tsx:37-40 | pushing the next quarter hour extends the options by one |
| Agendamento.BuildTimeOptions | client/pet-sync/src/components/Agendamento.tsx:32-42 | the nested loops produce 96 options, the `k`-th one with value and label both the text for hour `k / 4` and minute `15 * (k % 4)` |
| Agendamento.PushHour | client/pet-sync/src/components/Agendamento.tsx:34-41 | the inner loop pushes the four quarters of one hour |
| Agendamento.PadTwoDigits | client/pet-sync/src/components/Agendamento.tsx:35-36 | a number below 100 is padded to exactly its two digits |
| Agendamento.OptionTextIsClock | client/pet-sync/src/components/Agendamento.tsx:35-39 | the option text is the `HH:MM` clock form |
| Agendamento.TimeOptionShape | client/pet-sync/src/components/Agendamento.tsx:32-42 | every option is `HH:MM` with hour 00 to 23 and minute 00, 15, 30 or 45 |
| Agendamento.OptionAt | client/pet-sync/src/components/Agendamento.tsx:33-34 | hour `h` and quarter `q` give the option at position `4h + q` |
| Agendamento.EveryQuarterHourListed | client/pet-sync/src/components/Agendamento.tsx:32-42 | every quarter hour of the day is among the options |
| Agendamento.ClockLess | client/pet-sync/src/components/Agendamento.tsx:35-39 | clock texts are ordered by hour, then by minute |
| Agendamento.OptionOrder | client/pet-sync/src/components/Agendamento.tsx:33-34 | later options have a later hour, or the same hour and a later minute |
| Agendamento.TimeOptionsAscending | client/pet-sync/src/components/Agendamento.tsx:32-42 | the options are in strictly ascending order |
| Agendamento.TimeOptionsDistinct | client/pet-sync/src/components/Agendamento.tsx:32-42 | no two options have the same value |
| Agendamento.MaxArgsBound | client/pet-sync/src/components/Agendamento.tsx:167 | `Math.max(0, ...ids)` is NaN exactly when some id is NaN, and otherwise at least 0 and every id |
| Agendamento.NewId | client/pet-sync/src/components/Agendamento.tsx:167 | the new id is NaN exactly when some id is NaN, and otherwise a positive integer above every id |
| Agendamento.AddTime | client/pet-sync/src/components/Agendamento.tsx:165-170 | from 5 slots up nothing changes; below that one slot is appended with the new id, time `""` and `enabled = !autoRefill`, and the existing slots are untouched |
| Agendamento.AddTimeKeepsIdsDistinct | client/pet-sync/src/components/Agendamento.tsx:165-170 | adding a slot keeps the ids distinct |
| Agendamento.AddTimeCount | client/pet-sync/src/components/Agendamento.tsx:165-170 | a slot added with auto-refill off raises the footer count by one; with it on, the count stays |
| Agendamento.RemoveTime | client/pet-sync/src/components/Agendamento.tsx:172-174 | the result holds exactly the slots whose id is not `=== id`; an absent id changes nothing |
| Agendamento.RemoveTimeAppend | client/pet-sync/src/components/Agendamento.tsx:173 | removal keeps the order of the remaining slots |
| Agendamento.RemoveTimeAround | client/pet-sync/src/components/Agendamento.tsx:173 | removing an id held by one slot and by none around it leaves the slots around it, in order |
| Agendamento.RemoveTimeOwnId | client/pet-sync/src/components/Agendamento.tsx:173 | a slot with a numeric id is removed by its own id |
| Agendamento.RemoveTimeAt | client/pet-sync/src/components/Agendamento.tsx:172-174 | with distinct ids, removing slot `i`'s id drops that slot only; a NaN id removes nothing |
| Agendamento.OthersKept | client/pet-sync/src/components/Agendamento.tsx:172-174 | with distinct ids, the slots other than `i` survive removing slot `i`'s id |
| Agendamento.KeptBefore | client/pet-sync/src/components/Agendamento.tsx:172-174 | the slots before `i` survive removing slot `i`'s id |
| Agendamento.KeptAfter | client/pet-sync/src/components/Agendamento.tsx:172-174 | the slots after `i` survive removing slot `i`'s id |
| Agendamento.WithField | client/pet-sync/src/components/Agendamento.tsx:187 | `{...time, [field]: value}` changes the named field only |
| Agendamento.UpdateTime | client/pet-sync/src/components/Agendamento.tsx:176-192 | length, order and ids are kept; matching slots get the field, the others are unchanged; a NaN id changes nothing |
| Agendamento.UpdateTimeAt | client/pet-sync/src/components/Agendamento.tsx:176-192 | with distinct ids, updating slot `i`'s id changes slot `i` only |
| Agendamento.DisableAll | client/pet-sync/src/components/Agendamento.tsx:159-161 | afterwards no slot is switched on (the footer count is 0), and the list keeps its length, ids and times |
| Agendamento.AutoRefillEffect | client/pet-sync/src/components/Agendamento.tsx:157-163 | auto-refill on switches every slot off and keeps ids and times; off changes nothing |
| Agendamento.EnabledCount | client/pet-sync/src/components/Agendamento.tsx:438 | the footer count is at most the number of slots, 0 exactly when no slot is on, full exactly when every slot is on |
| Agendamento.EnabledCountAppend | client/pet-sync/src/components/Agendamento.tsx:438 | the count of two lists joined is the sum of their counts |
| Agendamento.UsedTimes | client/pet-sync/src/components/Agendamento.tsx:263 | a time is used exactly when some slot holds it |
| Agendamento.IsUsedMeaning | client/pet-sync/src/components/Agendamento.tsx:347-349 | in slot `k`'s picker an option is disabled exactly when another slot holds that time and slot `k` does not |
| Agendamento.PickKeepsTimesDistinct | client/pet-sync/src/components/Agendamento.tsx:347-366 | picking an option that is not disabled keeps the set times distinct |
| Agendamento.ToSaveRequests | client/pet-sync/src/components/Agendamento.tsx:209-216 | same length; position `i` gets id `(i+1).toString()`, its time as `hora`, its `enabled`, and the current auto-refill |
| Agendamento.LoadSlots | client/pet-sync/src/components/Agendamento.tsx:78-82 | same length; each slot gets `parseInt` of the id, `hora` as its time and `enabled` |
| Agendamento.FetchedAutoRefill | client/pet-sync/src/components/Agendamento.tsx:85 | on after a fetch exactly when the first entry has `hasAutomatico`; false for no entry |
| Agendamento.PushedAutoRefill | client/pet-sync/src/components/Agendamento.tsx:124-126 | a pushed list sets auto-refill from its first entry, and an empty one leaves it |
| Agendamento.Renumbered | client/pet-sync/src/components/Agendamento.tsx:211 | the renumbered list has distinct ids; slot i is slot i with id i + 1 |
| Agendamento.SaveThenLoad | client/pet-sync/src/components/Agendamento.tsx:78-85 | loading what a save sends gives ids 1..N with the same times and switches, and auto-refill as saved when the list is not empty |
| Agendamento.RenumberedIds | client/pet-sync/src/components/Agendamento.tsx:211 | renumbered ids are distinct and the next slot added gets id N + 1 |
| Sync.ToIncoming | client/pet-sync/src/components/Agendamento.tsx:209-216 | an element the screen sends passes the route's check exactly when its id and time are non-empty, and selects its own id |
| Sync.SaveBatch | client/pet-sync/src/components/Agendamento.tsx:209-225 | element i of the save selects the id `"i+1"`, and it passes the route's check exactly when slot i has a time |
| Sync.SaveBatchValid | server/server.js:143 | every element of the save passes the route's check when every slot has a time |
| Sync.IntToStringInjective | client/pet-sync/src/components/Agendamento.tsx:211 | different positions get different ids |
| Sync.SaveBatchIds | server/server.js:132 | the route reads the ids the screen sends as 1..N |
| Sync.SaveBatchBound | server/server.js:132-136 | the delete bound for a save of N slots is `"N"`, or `"-Infinity"` for none |
| Sync.MaxOfOneToN | server/server.js:132 | `Math.max(1, ..., N)` is N |
| Sync.PruneSlotKeys | server/server.js:134-138 | with at most nine slots over stored one-digit ids, the delete keeps exactly the stored ids `"1"`..`"N"` |
| Sync.PruneWithinSlots | server/server.js:134-138 | every stored id above N is deleted |
| Sync.PruneKeepsSlots | server/server.js:134-138 | every stored id from 1 to N survives |
| Sync.SlotSurvives | server/server.js:134-138 | the one-digit id `"d"` is not `$gt` `"n"` when d <= n |
| Sync.SaveBatchKeys | server/server.js:147-148 | the batch selects exactly the ids `"1"`..`"N"` |
| Sync.SaveBatchLastWithKey | server/server.js:147-148 | no later element of the save has the same id as element `i` |
| Sync.ClientSaveReplacesSchedule | server/server.js:127-156 | a save of up to nine set slots over the screen's own ids answers 200 and leaves exactly the ids `"1"`..`"N"`: shrinking the schedule deletes the removed slots |
| Sync.ClientSaveStoresSlot | server/server.js:140-153 | after a save of set slots, id `"i+1"` holds slot `i`'s time and switch with the save's auto-refill |
| Sync.ClientSaveOfNothing | server/server.js:132-138 | saving an empty list empties a collection of the screen's ids |
| Sync.ClientSaveWithUnsetSlot | server/server.js:134-145 | a slot with no time makes the route answer 400 after the delete and the slots before it |
| Sync.TimeOptionsMatchHora | server/server.js:101 | every picker option matches the `hora` pattern |
| Sync.ClockMatchesHora | server/server.js:101 | a clock time with hour below 24 and minute below 60 matches the `hora` pattern |
| Sync.HoraPatternBounds | server/server.js:101 | the pattern admits `"29:00"` and refuses `""` |
| Sync.ToggleSetsAutoRefill | client/pet-sync/src/components/Agendamento.tsx:194-200 | the switch's `{autoRefill: checked}` sets the server's flag and broadcasts once, level unchanged |
| Sync.SavedListMessageIsIgnored | client/pet-sync/src/components/Agendamento.tsx:237-242 | the `{agendamentos}` message sent after a save changes nothing on the server |

## Definitions

Definitions without a contract of their own. What they mean is stated by the members in the table that use them.

- `FeederServer.Apply` (server/server.js:61-72): the state after a change, with that state's `{level, autoRefill}` broadcast appended.
- `FeederServer.EntryValid` (server/server.js:143): `id` and `hora` are truthy, and `hasAutomatico` is a boolean.
- `FeederServer.KeyOf` (server/server.js:148): the filter `{ id }`, matched as the stored string.
- `FeederServer.RecordOf` (server/server.js:149): the update document `{ hora, hasAutomatico, peso, enabled }`.
- `FeederServer.PruneBound` (server/server.js:132-136): `maxIncomingId.toString()`, the bound of the delete.
- `FeederServer.HoraPattern` (server/server.js:101): the schema's `hora` pattern `^[0-2][0-9]:[0-5][0-9]$`.
- `Js.Less` (server/server.js:136): the order `$gt` compares ids in, which is code-point order.
- `Js.Truthy` (server/server.js:143): JavaScript truthiness of a property, where `undefined`, `null`, `false`, `0` and `""` are falsy.
- `Js.StrictEquals` (client/pet-sync/src/components/Agendamento.tsx:173): `===` on numbers, where NaN equals nothing.
- `Js.ToStr` (server/server.js:132): `String(v)`, which `parseInt` applies to its argument.
- `Agendamento.Ids` (client/pet-sync/src/components/Agendamento.tsx:167): `times.map((t) => t.id)`.
- `Agendamento.MaxArgs` (client/pet-sync/src/components/Agendamento.tsx:167): the arguments `0, ...ids` of `Math.max`.
- `Agendamento.IsUsed` (client/pet-sync/src/components/Agendamento.tsx:347-349): an option is disabled for a slot when some slot holds it and this slot does not.
- `Agendamento.OptionText` (client/pet-sync/src/components/Agendamento.tsx:35-39): `` `${hour padded}:${minute padded}` ``.
- `Agendamento.TimeOptionValue` (client/pet-sync/src/components/Agendamento.tsx:32-42): the value, and the label, of option k, which is hour k / 4 at minute 15 * (k % 4).
- `Agendamento.InitialSlots` (client/pet-sync/src/components/Agendamento.tsx:58-60): the list the screen starts with.
- `Agendamento.DistinctIds` (client/pet-sync/src/components/Agendamento.tsx:173): no two slots have ids that are `===`.
- `Js.IsWhiteSpace`, `Js.StripSign`, `Js.HasHexPrefix`, `Js.UnsignedValue` and `Js.DigitsValue` (server/server.js:34): the steps of `parseInt`, which are skipping white space, taking one sign, switching to radix 16 after `0x`, and reading the leading digits.
- `Js.NumToString` (server/server.js:136): `toString` of a number, including `"NaN"` and `"-Infinity"`.
- `Js.Max2` (server/server.js:132): `Math.max` of two numbers, where NaN wins.
- `Js.AddOne` (client/pet-sync/src/components/Agendamento.tsx:167): the `+ 1` after `Math.max`, which keeps NaN as NaN.
- `FeederServer.SnapshotOf` (server/server.js:21-26): the `{level, autoRefill}` payload, sent on connect and by every broadcast (server/server.js:61-72).
- `FeederServer.DocumentOf` (server/server.js:153): the document the loop pushes into `results`.
- `ServerProperties.BatchKeys` (server/server.js:148): the ids the batch's `{ id }` filters select.
- `Sync.SlotRecord` (client/pet-sync/src/components/Agendamento.tsx:209-216): the record a save stores for one slot.
- `Sync.ToggleMessage` (client/pet-sync/src/components/Agendamento.tsx:198): the `{ autoRefill: checked }` message the switch sends.
- `JsFacts.ParseIntOfTrimmed`, `ServerProperties.MessageEffectOfParsed`, `ServerProperties.SaveEntriesOfBatch` and `ServerProperties.SaveEffectOfBatch`: proof steps that unfold one branch of `ParseInt`, `MessageEffect` or `SaveEffect`. The lemmas in the table that use them state the meaning.

## Left out

- WebSocket and HTTP plumbing are not modelled: connection lifecycle, the `wss.clients` fan-out loop, the `readyState` checks, CORS, routing and `server.listen`. A broadcast is modelled by the payload it carries, not by its delivery.
- The database is not modelled beyond the map. This leaves out connection errors, and the 500 they cause other than for a body that is not an array. It also leaves out Mongoose casting, defaults, stripping of undefined fields and the `unique` index.
- Whether `required` and the `hora` schema pattern (server/server.js:101) run on `findOneAndUpdate` depends on Mongoose configuration, so the upsert stores the fields as given. The pattern is stated only as a predicate.
- `GET /api/listaAgendamentos` is a bare `find({})` with no defined order, so the model has no lemma that loads the stored list back into the screen. `Agendamento.SaveThenLoad` instead loads the saved entries in the order they were sent.
- JSON values are null, booleans, integers and strings. Arrays and objects inside a property are left out: `String(v)` of those is not modelled. So are `null` elements in the save body.
- Fractional numbers are left out. `/api/setFoodLevel` accepts any number in [0, 100] (server/server.js:176), but the level is an integer here.
- `-0` is left out.
- Numbers are not limited to 2^53. So the model does not capture precision loss or the exponent form `toString` uses from 1e21 up.
- FeederServer.Feeder.SaveSchedule: the two database calls are synchronous here. Concurrency between clients and between requests is left out.
- Agendamento.UpdateTime: the `id` field, which `keyof TimeSlot` allows but no caller passes, is left out.
- The screen's other state is left out: the dialog and picker open flags, the save trigger, and the socket handle. React's scheduling of effects and re-renders is left out too.
- When the screen receives a WebSocket message, `data.autoRefill` arrives as whatever JSON the server broadcast. The model does not cover how the screen takes it (Agendamento.tsx:106-108), because the screen's flag is typed boolean.
- `client/pet-sync/src/components/FoodBowl.tsx` (physics animation) is not part of this model.
- `client/pet-sync/src/main.tsx` (React start-up) is not part of this model.
