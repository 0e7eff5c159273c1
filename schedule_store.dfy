/** The database collection of schedule entries (`Agendamento`), seen as a
    map from the entry's `id` string to the rest of the document. Only the
    two operations the save route uses are modelled: `deleteMany` with a
    `$gt` filter on `id`, and `findOneAndUpdate` by `id` with `upsert`. */
module ScheduleStore {

  import opened Wrappers
  import opened Js

  /** The stored fields other than `id`, as the update document carries them
      (`peso` and `enabled` may be absent). */
  datatype Record = Record(hora: JsonValue, hasAutomatico: bool, peso: Option<JsonValue>, enabled: Option<JsonValue>)

  /** A whole document, as `findOneAndUpdate(..., {new: true})` returns it. */
  datatype Document = Document(id: string, record: Record)

  /** What is left after `deleteMany({id: {$gt: bound}})`: the entries whose
      id does not sort after `bound`. */
  function Prune(entries: map<string, Record>, bound: string): (r: map<string, Record>)
    ensures forall k :: k in r <==> k in entries && !Less(bound, k)
    ensures forall k :: k in r ==> r[k] == entries[k]
  {
    map k | k in entries && !Less(bound, k) :: entries[k]
  }

  class Collection {
    var entries: map<string, Record>

    constructor (initial: map<string, Record>)
      ensures entries == initial
    {
      entries := initial;
    }

    /** `deleteMany({id: {$gt: bound}})`. */
    method DeleteGreaterThan(bound: string)
      modifies this
      ensures entries == Prune(old(entries), bound)
    {
      entries := Prune(entries, bound);
    }

    /** `findOneAndUpdate({id}, record, {new: true, upsert: true})`: creates
        the entry when `id` is absent, replaces its fields otherwise, and
        returns the document as it now is. */
    method Upsert(id: string, record: Record) returns (doc: Document)
      modifies this
      ensures entries == old(entries)[id := record]
      ensures doc == Document(id, record)
    {
      entries := entries[id := record];
      doc := Document(id, record);
    }
  }
}
