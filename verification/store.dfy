/** The database mock behind the adapter, reduced to what the adapter uses:
    an object table, a state table and the record of state publications. */
module Store {
  import opened Values

  /** A stored state `{ val, ack }`. */
  datatype StateRec = StateRec(val: Value, ack: bool)

  /** The state record as a JavaScript object, as `getState` hands it out. */
  function StateValue(st: StateRec): Value {
    Obj(map["val" := st.val, "ack" := Bool(st.ack)])
  }

  /** The contents of the store. `objects` is keyed by the `_id` field of each
      published record; `stateLog` lists every `publishState` call in order. */
  datatype Db = Db(
    objects: map<Value, Record>,
    states: map<string, StateRec>,
    stateLog: seq<(string, StateRec)>)
  {
    /** `hasObject(id)`. */
    predicate HasObject(id: string) {
      Str(id) in objects
    }

    /** `getObject(id)`: the record, or `null` when there is none. */
    function ObjectAt(id: string): Value {
      if HasObject(id) then Obj(objects[Str(id)]) else Null
    }

    /** `getObject(id) || {}`. */
    function RecordOrEmpty(id: string): Record {
      if HasObject(id) then objects[Str(id)] else map[]
    }

    /** `publishObject(obj)`: upsert under the record's own `_id`. */
    function PublishObject(rec: Record): Db {
      this.(objects := objects[Field(rec, "_id") := rec])
    }

    /** `deleteObject(id)`. */
    function DeleteObject(id: string): Db {
      this.(objects := objects - {Str(id)})
    }

    /** `hasState(id)`. */
    predicate HasState(id: string) {
      id in states
    }

    /** `getState(id)`: the state, or `undefined` when there is none. */
    function StateAt(id: string): Value {
      if HasState(id) then StateValue(states[id]) else Undefined
    }

    /** `publishState(id, state)`: upsert, and one more publication. */
    function PublishState(id: string, st: StateRec): Db {
      this.(states := states[id := st], stateLog := stateLog + [(id, st)])
    }

    /** `deleteState(id)`. */
    function DeleteState(id: string): Db {
      this.(states := states - {id})
    }
  }

  /** The shared database mock. The wildcard matching of `getObjects` and
      `getStates` belongs to the store and is given as two functions of the
      current tables and the pattern. */
  class Database {
    var content: Db
    const matchObjects: (map<Value, Record>, string, Value) -> Value
    const matchStates: (map<string, StateRec>, string) -> Value

    constructor (initial: Db,
                 matchObjects: (map<Value, Record>, string, Value) -> Value,
                 matchStates: (map<string, StateRec>, string) -> Value)
      ensures content == initial
      ensures this.matchObjects == matchObjects && this.matchStates == matchStates
    {
      content := initial;
      this.matchObjects := matchObjects;
      this.matchStates := matchStates;
    }
  }
}
