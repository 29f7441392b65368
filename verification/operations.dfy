/** What each store-changing adapter operation does to the store, and the
    arguments it hands to its callback after the leading error slot. */
module Operations {
  import opened Values
  import opened Namespaces
  import opened Store
  import opened Calls

  /** The store after an operation and the arguments its callback receives. */
  datatype Step = Step(db: Db, reply: seq<Value>)

  /** `{ id }`, reported by the object setters. */
  function IdReply(id: string): Value {
    Obj(map["id" := Str(id)])
  }

  /** `obj._id = id`. */
  function Stamp(obj: Record, id: string): (r: Record)
    ensures Field(r, "_id") == Str(id)
    ensures forall k :: k in obj && k != "_id" ==> k in r && r[k] == obj[k]
    ensures r.Keys == obj.Keys + {"_id"}
  {
    obj["_id" := Str(id)]
  }

  /** Key-wise override of `base` by `partial`, the merge performed by
      `extend({}, existing, obj)` and by `Object.assign(target, obj)`. */
  function Merge(base: Record, partial: Record): (r: Record)
    ensures r.Keys == base.Keys + partial.Keys
    ensures forall k :: k in partial ==> r[k] == partial[k]
    ensures forall k :: k in base && k !in partial ==> r[k] == base[k]
  {
    base + partial
  }

  /** `{ id: target._id, value: target }` followed by the id, reported by the
      two `extend` operations. */
  function ExtendReply(target: Record, id: string): seq<Value> {
    [Null, Obj(map["id" := Field(target, "_id"), "value" := Obj(target)]), Str(id)]
  }

  // ---- objects ----

  /** `setForeignObject`: stamps the id as given and upserts the record there. */
  function SetForeignObject(db: Db, id: string, obj: Record): (s: Step)
    ensures s.db.objects == db.objects[Str(id) := Stamp(obj, id)]
    ensures s.db.states == db.states && s.db.stateLog == db.stateLog
    ensures s.reply == [Null, IdReply(id)]
  {
    Step(db.PublishObject(Stamp(obj, id)), [Null, IdReply(id)])
  }

  /** `setObject`: stamps the normalised id and upserts the record there. */
  function SetObject(db: Db, ns: string, id: string, obj: Record): (s: Step)
    ensures var key := NormaliseId(ns, id);
      && s.db.objects == db.objects[Str(key) := Stamp(obj, key)]
      && s.db.states == db.states && s.db.stateLog == db.stateLog
      && s.reply == [Null, IdReply(key)]
  {
    var key := NormaliseId(ns, id);
    Step(db.PublishObject(Stamp(obj, key)), [Null, IdReply(key)])
  }

  /** `setObjectNotExists`: leaves an existing record alone, otherwise
      re-enters `setObject` with the already normalised id. */
  function SetObjectNotExists(db: Db, ns: string, id: string, obj: Record): (s: Step)
    ensures var key := NormaliseId(ns, id);
      && (db.HasObject(key) ==> s.db == db)
      && (!db.HasObject(key) ==> s.db.objects == db.objects[Str(key) := Stamp(obj, key)]
                                 && s.db.states == db.states && s.db.stateLog == db.stateLog)
      && s.reply == [Null, IdReply(key)]
  {
    var key := NormaliseId(ns, id);
    if db.HasObject(key) then Step(db, [Null, IdReply(key)])
    else
      NormaliseIdIdempotent(ns, id);
      SetObject(db, ns, key, obj)
  }

  /** `setForeignObjectNotExists`: tests the id as given, but an absent id is
      written through the local `setObject`, so under the normalised id. */
  function SetForeignObjectNotExists(db: Db, ns: string, id: string, obj: Record): (s: Step)
    ensures db.HasObject(id) ==> s.db == db && s.reply == [Null, IdReply(id)]
    ensures var key := NormaliseId(ns, id);
      !db.HasObject(id) ==>
        && s.db.objects == db.objects[Str(key) := Stamp(obj, key)]
        && s.db.states == db.states && s.db.stateLog == db.stateLog
        && s.reply == [Null, IdReply(key)]
  {
    if db.HasObject(id) then Step(db, [Null, IdReply(id)])
    else SetObject(db, ns, id, obj)
  }

  /** `extendObject`: merges the partial object over the stored record (or
      `{}`) and publishes the result under the result's own `_id`, which is
      not stamped. */
  function ExtendObject(db: Db, ns: string, id: string, obj: Record): (s: Step)
    ensures var key := NormaliseId(ns, id);
      var target := Merge(db.RecordOrEmpty(key), obj);
      && target.Keys == db.RecordOrEmpty(key).Keys + obj.Keys
      && s.db.objects == db.objects[Field(target, "_id") := target]
      && s.db.states == db.states && s.db.stateLog == db.stateLog
      && s.reply == ExtendReply(target, key)
  {
    var key := NormaliseId(ns, id);
    var target := Merge(db.RecordOrEmpty(key), obj);
    Step(db.PublishObject(target), ExtendReply(target, key))
  }

  /** `extendForeignObject`: `Object.assign` writes the partial object into
      the stored record itself, so the entry at `id` holds the merged record
      even when the merge moves its `_id`; the result is then published. */
  function ExtendForeignObject(db: Db, id: string, obj: Record): (s: Step)
    ensures var target := Merge(db.RecordOrEmpty(id), obj);
      && (db.HasObject(id) ==> s.db.objects == db.objects[Str(id) := target][Field(target, "_id") := target])
      && (!db.HasObject(id) ==> s.db.objects == db.objects[Field(target, "_id") := target])
      && s.db.states == db.states && s.db.stateLog == db.stateLog
      && s.reply == ExtendReply(target, id)
  {
    var target := Merge(db.RecordOrEmpty(id), obj);
    var inPlace := if db.HasObject(id) then db.(objects := db.objects[Str(id) := target]) else db;
    Step(inPlace.PublishObject(target), ExtendReply(target, id))
  }

  /** `delForeignObject`: removes the entry at the id as given. */
  function DelForeignObject(db: Db, id: string): (s: Step)
    ensures !s.db.HasObject(id)
    ensures s.db.objects == db.objects - {Str(id)}
    ensures s.db.states == db.states && s.db.stateLog == db.stateLog
    ensures s.reply == [Undefined]
  {
    Step(db.DeleteObject(id), [Undefined])
  }

  /** `delObject`: removes the entry at the normalised id. */
  function DelObject(db: Db, ns: string, id: string): (s: Step)
    ensures !s.db.HasObject(NormaliseId(ns, id))
    ensures s.db.objects == db.objects - {Str(NormaliseId(ns, id))}
    ensures s.db.states == db.states && s.db.stateLog == db.stateLog
    ensures s.reply == [Undefined]
  {
    Step(db.DeleteObject(NormaliseId(ns, id)), [Undefined])
  }

  // ---- states ----

  /** `setForeignState`: publishes the resolved state at the id as given. */
  function SetForeignState(db: Db, id: string, state: Value, ack: Value): (s: Step)
    ensures var st := ResolveState(state, ack);
      && s.db.states == db.states[id := st]
      && s.db.stateLog == db.stateLog + [(id, st)]
      && s.db.objects == db.objects
      && s.reply == [Null, Str(id)]
  {
    Step(db.PublishState(id, ResolveState(state, ack)), [Null, Str(id)])
  }

  /** `setState`: publishes the resolved state at the normalised id and
      reports that id bare, not wrapped in `{ id }`. */
  function SetState(db: Db, ns: string, id: string, state: Value, ack: Value): (s: Step)
    ensures var key := NormaliseId(ns, id);
      var st := ResolveState(state, ack);
      && s.db.states == db.states[key := st]
      && s.db.stateLog == db.stateLog + [(key, st)]
      && s.db.objects == db.objects
      && s.reply == [Null, Str(key)]
  {
    var key := NormaliseId(ns, id);
    Step(db.PublishState(key, ResolveState(state, ack)), [Null, Str(key)])
  }

  /** Whether a `set*StateChanged` call publishes: the state is absent, or its
      stored value differs from the new one. */
  predicate Changes(db: Db, id: string, v: Value) {
    !db.HasState(id) || db.states[id].val != v
  }

  /** `setForeignStateChanged`: publishes at the id as given only when that
      changes the stored value; reports the id either way. */
  function SetForeignStateChanged(db: Db, id: string, state: Value, ack: Value): (s: Step)
    ensures var st := ResolveState(state, ack);
      && (Changes(db, id, st.val) ==> s.db.states == db.states[id := st] && s.db.stateLog == db.stateLog + [(id, st)]
                                      && s.db.objects == db.objects)
      && (!Changes(db, id, st.val) ==> s.db == db)
      && s.reply == [Null, Str(id)]
  {
    var st := ResolveState(state, ack);
    var db' := if !db.HasState(id) || db.StateAt(id).fields["val"] != st.val then db.PublishState(id, st) else db;
    Step(db', [Null, Str(id)])
  }

  /** `setStateChanged`: as `setForeignStateChanged`, at the normalised id. */
  function SetStateChanged(db: Db, ns: string, id: string, state: Value, ack: Value): (s: Step)
    ensures var key := NormaliseId(ns, id);
      var st := ResolveState(state, ack);
      && (Changes(db, key, st.val) ==> s.db.states == db.states[key := st] && s.db.stateLog == db.stateLog + [(key, st)]
                                       && s.db.objects == db.objects)
      && (!Changes(db, key, st.val) ==> s.db == db)
      && s.reply == [Null, Str(key)]
  {
    var st := ResolveState(state, ack);
    var key := NormaliseId(ns, id);
    var db' := if !db.HasState(key) || db.StateAt(key).fields["val"] != st.val then db.PublishState(key, st) else db;
    Step(db', [Null, Str(key)])
  }

  /** `delForeignState`: removes the state at the id as given. */
  function DelForeignState(db: Db, id: string): (s: Step)
    ensures !s.db.HasState(id)
    ensures s.db.states == db.states - {id}
    ensures s.db.objects == db.objects && s.db.stateLog == db.stateLog
    ensures s.reply == [Undefined]
  {
    Step(db.DeleteState(id), [Undefined])
  }

  /** `delState`: removes the state at the normalised id. */
  function DelState(db: Db, ns: string, id: string): (s: Step)
    ensures !s.db.HasState(NormaliseId(ns, id))
    ensures s.db.states == db.states - {NormaliseId(ns, id)}
    ensures s.db.objects == db.objects && s.db.stateLog == db.stateLog
    ensures s.reply == [Undefined]
  {
    Step(db.DeleteState(NormaliseId(ns, id)), [Undefined])
  }
}
