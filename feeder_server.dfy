/** The feeder server: its two process-wide variables (`currentFoodLevel`,
    `autoRefillEnabled`), the WebSocket message handler, the payload of the
    on-connect message and of `broadcastFoodLevel`, the `setFoodLevel`
    route and the `salvarAgendamento` route that reconciles the stored
    schedule.

    Each handler is a method of class `Feeder` that updates the fields the
    way the handler does, and is proved equal to a function of the old
    state (`MessageEffect`, `SetFoodLevelEffect`, `SaveEffect`); the
    properties of those functions are proved in module ServerProperties. */
module FeederServer {

  import opened Wrappers
  import opened Js
  import opened JsFacts
  import opened ScheduleStore

  // ---------------------------------------------------------------------
  // Feeder state and its payload

  const InitialLevel: int := 50
  const MaxLevel: int := 100
  const DispenseStep: int := 20

  /** `currentFoodLevel` (a percentage) and `autoRefillEnabled`, which holds
      whatever value the last `autoRefill` message carried. */
  datatype FeederState = FeederState(level: int, autoRefill: JsonValue)

  const Initial := FeederState(InitialLevel, JBool(false))

  /** `{level, autoRefill}`: the message sent on connect and by every broadcast. */
  datatype Snapshot = Snapshot(level: int, autoRefill: JsonValue)

  function SnapshotOf(s: FeederState): Snapshot {
    Snapshot(s.level, s.autoRefill)
  }

  predicate InRange(level: int) {
    0 <= level <= MaxLevel
  }

  // ---------------------------------------------------------------------
  // WebSocket messages

  /** An incoming WebSocket message: text that `JSON.parse` rejects, or a
      parsed value with its `level`, `autoRefill` and `action` properties
      (`None` when undefined; a parsed value that is not an object has none). */
  datatype Message =
    | Unparsable
    | Parsed(level: Option<JsonValue>, autoRefill: Option<JsonValue>, action: Option<JsonValue>)

  /** The new state and the payloads broadcast, in order. */
  datatype Effect = Effect(state: FeederState, sent: seq<Snapshot>)

  /** The level a `level` property asks for: `parseInt` of it, kept only when
      it is a number from 0 to 100. */
  function RequestedLevel(v: JsonValue): (r: Option<int>)
    ensures r.Some? ==> InRange(r.value) && ParseInt(ToStr(Some(v))) == Finite(r.value)
    ensures r.Some? <==> ParseInt(ToStr(Some(v))).Finite? && InRange(ParseInt(ToStr(Some(v))).n)
  {
    var n := ParseInt(ToStr(Some(v)));
    if n.Finite? && InRange(n.n) then Some(n.n) else None
  }

  /** `Math.min(level + 20, 100)`. */
  function Dispensed(level: int): (r: int)
    ensures r <= MaxLevel && r <= level + DispenseStep
    ensures r == MaxLevel || r == level + DispenseStep
  {
    if level + DispenseStep < MaxLevel then level + DispenseStep else MaxLevel
  }

  /** Applies a change and records the broadcast that follows it. */
  function Apply(e: Effect, next: FeederState): Effect {
    Effect(next, e.sent + [SnapshotOf(next)])
  }

  /** `r` is `e`, or `e` followed by one change and its broadcast. */
  predicate StepsFrom(e: Effect, r: Effect) {
    r == e || r.sent == e.sent + [SnapshotOf(r.state)]
  }

  /** The `level` branch of the handler. */
  function LevelStep(e: Effect, level: Option<JsonValue>): (r: Effect)
    ensures StepsFrom(e, r) && r.state.autoRefill == e.state.autoRefill
    ensures InRange(e.state.level) ==> InRange(r.state.level)
  {
    if level.Some? && RequestedLevel(level.value).Some?
    then Apply(e, e.state.(level := RequestedLevel(level.value).value))
    else e
  }

  /** The `autoRefill` branch: the value is taken as it is. */
  function AutoRefillStep(e: Effect, autoRefill: Option<JsonValue>): (r: Effect)
    ensures StepsFrom(e, r) && r.state.level == e.state.level
  {
    if autoRefill.Some? then Apply(e, e.state.(autoRefill := autoRefill.value)) else e
  }

  /** The `action: "dispenseFood"` branch. */
  function ActionStep(e: Effect, action: Option<JsonValue>): (r: Effect)
    ensures StepsFrom(e, r) && r.state.autoRefill == e.state.autoRefill
    ensures InRange(e.state.level) ==> InRange(r.state.level)
  {
    if action == Some(JStr("dispenseFood"))
    then Apply(e, e.state.(level := Dispensed(e.state.level)))
    else e
  }

  /** The message handler: `level`, then `autoRefill`, then `action`, each
      applied change followed by one broadcast of the then-current state. */
  function MessageEffect(s: FeederState, m: Message): (r: Effect)
    ensures InRange(s.level) ==> InRange(r.state.level)
    ensures r.sent == [] ==> r.state == s
    ensures r.sent != [] ==> r.sent[|r.sent| - 1] == SnapshotOf(r.state)
    ensures |r.sent| <= 3
  {
    match m
    case Unparsable => Effect(s, [])
    case Parsed(level, autoRefill, action) =>
      ActionStep(AutoRefillStep(LevelStep(Effect(s, []), level), autoRefill), action)
  }

  // ---------------------------------------------------------------------
  // POST /api/setFoodLevel

  /** `200 {success: true, level}` or `400`. */
  datatype LevelReply = LevelAccepted(level: int) | LevelRejected

  datatype HttpEffect = HttpEffect(state: FeederState, reply: LevelReply, sent: seq<Snapshot>)

  /** The route handler, given the body's `level` property. */
  function SetFoodLevelEffect(s: FeederState, level: Option<JsonValue>): (r: HttpEffect)
    ensures r.reply.LevelAccepted? <==> level.Some? && level.value.JNum? && InRange(level.value.n)
    ensures r.reply.LevelAccepted? ==>
              r.reply.level == level.value.n && r.state == s.(level := level.value.n)
              && r.sent == [SnapshotOf(r.state)]
    ensures r.reply.LevelRejected? ==> r.state == s && r.sent == []
  {
    if level.Some? && level.value.JNum? && InRange(level.value.n) then
      var next := s.(level := level.value.n);
      HttpEffect(next, LevelAccepted(level.value.n), [SnapshotOf(next)])
    else
      HttpEffect(s, LevelRejected, [])
  }

  // ---------------------------------------------------------------------
  // POST /api/salvarAgendamento

  /** One element of the request body, each property `None` when undefined. */
  datatype Incoming = Incoming(
    id: Option<JsonValue>,
    hora: Option<JsonValue>,
    hasAutomatico: Option<JsonValue>,
    peso: Option<JsonValue>,
    enabled: Option<JsonValue>)

  /** The request body: an array of entries, or anything else (on which
      `agendamentos.map` throws). */
  datatype SaveBody = NotAnArray | Batch(entries: seq<Incoming>)

  /** `200` with the updated documents, `400 Dados inválidos`, or `500`. */
  datatype SaveReply = Saved(results: seq<Document>) | InvalidData | ServerError

  /** The per-entry check: truthy `id`, truthy `hora`, boolean `hasAutomatico`. */
  predicate EntryValid(e: Incoming) {
    Truthy(e.id) && Truthy(e.hora) && e.hasAutomatico.Some? && e.hasAutomatico.value.JBool?
  }

  /** The stored id an update filter `{id}` selects: the id cast to a string. */
  function KeyOf(e: Incoming): string {
    ToStr(e.id)
  }

  /** The update document `{hora, hasAutomatico, peso, enabled}`. */
  function RecordOf(e: Incoming): Record
    requires EntryValid(e)
  {
    Record(e.hora.value, e.hasAutomatico.value.b, e.peso, e.enabled)
  }

  function DocumentOf(e: Incoming): Document
    requires EntryValid(e)
  {
    Document(KeyOf(e), RecordOf(e))
  }

  /** `agendamentos.map((a) => parseInt(a.id))`: one number per entry, never
      -Infinity, and a numeric id reads back as itself. */
  function IdNumbers(es: seq<Incoming>): (r: seq<Num>)
    ensures |r| == |es|
    ensures forall i :: 0 <= i < |es| ==> r[i].Finite? || r[i].NaN?
    ensures forall i :: 0 <= i < |es| && es[i].id.Some? && es[i].id.value.JNum? ==> r[i] == Finite(es[i].id.value.n)
  {
    NumericIdsReadBack(es);
    seq(|es|, i requires 0 <= i < |es| => ParseInt(ToStr(es[i].id)))
  }

  lemma NumericIdsReadBack(es: seq<Incoming>)
    ensures forall i :: 0 <= i < |es| && es[i].id.Some? && es[i].id.value.JNum? ==>
              ParseInt(ToStr(es[i].id)) == Finite(es[i].id.value.n)
  {
    forall i | 0 <= i < |es| && es[i].id.Some? && es[i].id.value.JNum?
      ensures ParseInt(ToStr(es[i].id)) == Finite(es[i].id.value.n)
    {
      ParseIntOfIntToStringExact(es[i].id.value.n);
    }
  }

  /** `maxIncomingId.toString()`, the bound of the delete. */
  function PruneBound(es: seq<Incoming>): string {
    NumToString(MaxOf(IdNumbers(es)))
  }

  /** The state of the save loop: the collection, the documents pushed into
      `results`, and whether an invalid entry ended the loop. */
  datatype Progress = Progress(entries: map<string, Record>, results: seq<Document>, rejected: bool)

  /** The save loop over `es`, starting from the collection `entries`:
      each valid entry is upserted and its document pushed; the first invalid
      entry stops the loop, leaving the earlier upserts in place. */
  function Upserts(entries: map<string, Record>, es: seq<Incoming>): (r: Progress)
    ensures r.rejected <==> exists i :: 0 <= i < |es| && !EntryValid(es[i])
    ensures !r.rejected ==> |r.results| == |es|
    ensures !r.rejected ==> forall i :: 0 <= i < |es| ==> EntryValid(es[i]) && r.results[i] == DocumentOf(es[i])
  {
    if es == [] then Progress(entries, [], false)
    else
      var front := es[..|es| - 1];
      assert forall i :: 0 <= i < |front| ==> front[i] == es[i];
      var p := Upserts(entries, front);
      var e := es[|es| - 1];
      if p.rejected then p
      else if !EntryValid(e) then p.(rejected := true)
      else
        var doc := DocumentOf(e);
        Progress(p.entries[doc.id := doc.record], p.results + [doc], false)
  }

  /** The collection after the save and the reply. */
  datatype SaveOutcome = SaveOutcome(entries: map<string, Record>, reply: SaveReply)

  /** The route handler: delete the entries whose id sorts after the bound,
      then run the upsert loop. */
  function SaveEffect(entries: map<string, Record>, body: SaveBody): (r: SaveOutcome)
    ensures body.NotAnArray? ==> r == SaveOutcome(entries, ServerError)
    ensures body.Batch? ==> r.reply != ServerError
  {
    match body
    case NotAnArray => SaveOutcome(entries, ServerError)
    case Batch(es) =>
      var p := Upserts(Prune(entries, PruneBound(es)), es);
      SaveOutcome(p.entries, if p.rejected then InvalidData else Saved(p.results))
  }

  /** The `hora` field's schema pattern `^[0-2][0-9]:[0-5][0-9]$`. */
  predicate HoraPattern(s: string) {
    |s| == 5 && '0' <= s[0] <= '2' && IsDecimalDigit(s[1]) && s[2] == ':'
    && '0' <= s[3] <= '5' && IsDecimalDigit(s[4])
  }

  // ---------------------------------------------------------------------
  // The server process

  class Feeder {
    var level: int
    var autoRefill: JsonValue
    const schedule: Collection

    ghost predicate Valid()
      reads this
    {
      InRange(level)
    }

    function State(): FeederState
      reads this
    {
      FeederState(level, autoRefill)
    }

    /** The state at process start, with the database collection it saves into. */
    constructor (schedule: Collection)
      ensures Valid() && State() == Initial && this.schedule == schedule
    {
      level := InitialLevel;
      autoRefill := JBool(false);
      this.schedule := schedule;
    }

    /** `{level: currentFoodLevel, autoRefill: autoRefillEnabled}`. */
    function CurrentSnapshot(): Snapshot
      reads this
    {
      Snapshot(level, autoRefill)
    }

    /** The message a client receives when it connects. */
    method OnConnect() returns (greeting: Snapshot)
      ensures greeting.level == level && greeting.autoRefill == autoRefill
    {
      greeting := CurrentSnapshot();
    }

    /** The WebSocket `message` handler; `sent` lists the broadcast payloads. */
    method HandleMessage(m: Message) returns (sent: seq<Snapshot>)
      requires Valid()
      modifies this
      ensures Valid()
      ensures Effect(State(), sent) == MessageEffect(old(State()), m)
    {
      sent := [];
      if m.Unparsable? {
        return;
      }
      sent := HandleLevel(m.level, sent);
      sent := HandleAutoRefill(m.autoRefill, sent);
      sent := HandleAction(m.action, sent);
    }

    /** `if (data.level !== undefined) { ... }`. */
    method HandleLevel(value: Option<JsonValue>, before: seq<Snapshot>) returns (sent: seq<Snapshot>)
      requires Valid()
      modifies this
      ensures Valid()
      ensures Effect(State(), sent) == LevelStep(Effect(old(State()), before), value)
    {
      sent := before;
      if value.Some? {
        var newLevel := ParseInt(ToStr(value));
        if newLevel.Finite? && newLevel.n >= 0 && newLevel.n <= MaxLevel {
          level := newLevel.n;
          sent := sent + [CurrentSnapshot()];
        }
      }
    }

    /** `if (data.autoRefill !== undefined) { ... }`. */
    method HandleAutoRefill(value: Option<JsonValue>, before: seq<Snapshot>) returns (sent: seq<Snapshot>)
      requires Valid()
      modifies this
      ensures Valid()
      ensures Effect(State(), sent) == AutoRefillStep(Effect(old(State()), before), value)
    {
      sent := before;
      if value.Some? {
        autoRefill := value.value;
        sent := sent + [CurrentSnapshot()];
      }
    }

    /** `if (data.action === "dispenseFood") { ... }`. */
    method HandleAction(action: Option<JsonValue>, before: seq<Snapshot>) returns (sent: seq<Snapshot>)
      requires Valid()
      modifies this
      ensures Valid()
      ensures Effect(State(), sent) == ActionStep(Effect(old(State()), before), action)
    {
      sent := before;
      if action == Some(JStr("dispenseFood")) {
        level := if level + DispenseStep < MaxLevel then level + DispenseStep else MaxLevel;
        sent := sent + [CurrentSnapshot()];
      }
    }

    /** `POST /api/setFoodLevel` with the body's `level` property. */
    method SetFoodLevel(bodyLevel: Option<JsonValue>) returns (reply: LevelReply, sent: seq<Snapshot>)
      requires Valid()
      modifies this
      ensures Valid()
      ensures HttpEffect(State(), reply, sent) == SetFoodLevelEffect(old(State()), bodyLevel)
    {
      if !(bodyLevel.Some? && bodyLevel.value.JNum?) || bodyLevel.value.n < 0 || bodyLevel.value.n > MaxLevel {
        return LevelRejected, [];
      }
      level := bodyLevel.value.n;
      sent := [CurrentSnapshot()];
      reply := LevelAccepted(level);
    }

    /** `POST /api/salvarAgendamento`. */
    method SaveSchedule(body: SaveBody) returns (reply: SaveReply)
      modifies schedule
      ensures SaveOutcome(schedule.entries, reply) == SaveEffect(old(schedule.entries), body)
    {
      if body.NotAnArray? {
        return ServerError;
      }
      var es := body.entries;
      var maxIncomingId := MaxOf(IdNumbers(es));
      schedule.DeleteGreaterThan(NumToString(maxIncomingId));
      ghost var pruned := schedule.entries;
      var results: seq<Document> := [];
      var i := 0;
      while i < |es|
        invariant 0 <= i <= |es|
        invariant Upserts(pruned, es[..i]) == Progress(schedule.entries, results, false)
      {
        var e := es[i];
        if !EntryValid(e) {
          UpsertsRejectAt(pruned, es, i);
          UpsertsStayRejected(pruned, es, i + 1);
          return InvalidData;
        }
        UpsertsAcceptAt(pruned, es, i);
        var doc := schedule.Upsert(KeyOf(e), RecordOf(e));
        results := results + [doc];
        i := i + 1;
      }
      assert es[..i] == es;
      reply := Saved(results);
    }
  }

  lemma UpsertsRejectAt(entries: map<string, Record>, es: seq<Incoming>, i: nat)
    requires i < |es| && !EntryValid(es[i])
    requires !Upserts(entries, es[..i]).rejected
    ensures Upserts(entries, es[..i + 1]) == Upserts(entries, es[..i]).(rejected := true)
  {
    assert es[..i + 1][..i] == es[..i];
  }

  lemma UpsertsAcceptAt(entries: map<string, Record>, es: seq<Incoming>, i: nat)
    requires i < |es| && EntryValid(es[i])
    requires !Upserts(entries, es[..i]).rejected
    ensures var p := Upserts(entries, es[..i]);
            Upserts(entries, es[..i + 1])
            == Progress(p.entries[KeyOf(es[i]) := RecordOf(es[i])], p.results + [DocumentOf(es[i])], false)
  {
    assert es[..i + 1][..i] == es[..i];
  }

  /** Once the loop has stopped at an invalid entry, later entries change nothing. */
  lemma {:induction false} UpsertsStayRejected(entries: map<string, Record>, es: seq<Incoming>, j: nat)
    requires j <= |es|
    requires Upserts(entries, es[..j]).rejected
    ensures Upserts(entries, es) == Upserts(entries, es[..j])
    decreases |es| - j
  {
    if j < |es| {
      assert es[..j + 1][..j] == es[..j];
      UpsertsStayRejected(entries, es, j + 1);
    } else {
      assert es[..j] == es;
    }
  }
}
