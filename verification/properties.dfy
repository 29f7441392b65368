/** Properties that relate several adapter operations to one another. */
module Properties {
  import opened Values
  import opened Namespaces
  import opened Store
  import opened Calls
  import opened Operations

  /** Every local operation is its foreign counterpart applied to the
      normalised id; in particular an id that already starts with the
      namespace reaches the store exactly as given. */
  lemma LocalIsForeignOnNormalisedId(db: Db, ns: string, id: string, obj: Record, state: Value, ack: Value)
    ensures var key := NormaliseId(ns, id);
      && SetObject(db, ns, id, obj) == SetForeignObject(db, key, obj)
      && DelObject(db, ns, id) == DelForeignObject(db, key)
      && SetState(db, ns, id, state, ack) == SetForeignState(db, key, state, ack)
      && SetStateChanged(db, ns, id, state, ack) == SetForeignStateChanged(db, key, state, ack)
      && DelState(db, ns, id) == DelForeignState(db, key)
  {
  }

  /** A record written with `setObject` is what `getObject` returns for the
      same local id, stamped with the normalised id. */
  lemma GetObjectAfterSetObject(db: Db, ns: string, id: string, obj: Record)
    ensures var key := NormaliseId(ns, id);
      SetObject(db, ns, id, obj).db.ObjectAt(key) == Obj(obj["_id" := Str(key)])
  {
  }

  /** Two `setObjectNotExists` calls with different payloads: the second one
      changes nothing, and the record stored is the one that was already
      there, or else the first payload. */
  lemma SetObjectNotExistsKeepsFirst(db: Db, ns: string, id: string, first: Record, second: Record)
    ensures var key := NormaliseId(ns, id);
      var s1 := SetObjectNotExists(db, ns, id, first);
      var s2 := SetObjectNotExists(s1.db, ns, id, second);
      && s2.db == s1.db
      && s2.db.HasObject(key)
      && s2.db.objects[Str(key)] == (if db.HasObject(key) then db.objects[Str(key)] else Stamp(first, key))
  {
  }

  /** `setForeignObjectNotExists` tests the id as given but writes under the
      namespaced id, so a record already stored there is overwritten. */
  lemma SetForeignObjectNotExistsOverwrites(db: Db, ns: string, id: string, obj: Record)
    requires !StartsWith(id, ns)
    requires !db.HasObject(id) && db.HasObject(ns + "." + id)
    ensures var s := SetForeignObjectNotExists(db, ns, id, obj);
      && s.db.HasObject(ns + "." + id)
      && s.db.objects[Str(ns + "." + id)] == Stamp(obj, ns + "." + id)
  {
  }

  /** What `getState` returns after `setState` is the resolved payload. */
  lemma GetStateAfterSetState(db: Db, ns: string, id: string, state: Value, ack: Value)
    ensures var key := NormaliseId(ns, id);
      SetState(db, ns, id, state, ack).db.StateAt(key) == StateValue(ResolveState(state, ack))
  {
  }

  /** Repeating `setStateChanged` with the same payload publishes at most
      once: the second call is a no-op whatever its `ack` argument. */
  lemma SetStateChangedPublishesOnce(db: Db, ns: string, id: string, state: Value, ack1: Value, ack2: Value)
    ensures var s1 := SetStateChanged(db, ns, id, state, ack1);
      var s2 := SetStateChanged(s1.db, ns, id, state, ack2);
      && s2.db == s1.db
      && |s2.db.stateLog| == |db.stateLog| + (if Changes(db, NormaliseId(ns, id), ResolveState(state, ack1).val) then 1 else 0)
  {
    var key := NormaliseId(ns, id);
    var s1 := SetStateChanged(db, ns, id, state, ack1);
    assert ResolveState(state, ack2).val == ResolveState(state, ack1).val;
    assert !Changes(s1.db, key, ResolveState(state, ack2).val);
  }

  /** The same for the foreign variant. */
  lemma SetForeignStateChangedPublishesOnce(db: Db, id: string, state: Value, ack1: Value, ack2: Value)
    ensures var s1 := SetForeignStateChanged(db, id, state, ack1);
      var s2 := SetForeignStateChanged(s1.db, id, state, ack2);
      && s2.db == s1.db
      && |s2.db.stateLog| == |db.stateLog| + (if Changes(db, id, ResolveState(state, ack1).val) then 1 else 0)
  {
    var s1 := SetForeignStateChanged(db, id, state, ack1);
    assert ResolveState(state, ack2).val == ResolveState(state, ack1).val;
    assert !Changes(s1.db, id, ResolveState(state, ack2).val);
  }

  /** Two `extendObject` calls on a record written by `setObject`: the
      stored record keeps every key of the record and of both partial
      objects, the later partial object winning on conflicts. */
  lemma ExtendObjectTwice(db: Db, ns: string, id: string, p1: Record, p2: Record)
    requires var key := NormaliseId(ns, id);
      db.HasObject(key) && Field(db.objects[Str(key)], "_id") == Str(key)
    requires "_id" !in p1 && "_id" !in p2
    ensures var key := NormaliseId(ns, id);
      var stored := db.objects[Str(key)];
      var s2 := ExtendObject(ExtendObject(db, ns, id, p1).db, ns, id, p2);
      && s2.db.HasObject(key)
      && var r := s2.db.objects[Str(key)];
      && r.Keys == stored.Keys + p1.Keys + p2.Keys
      && (forall k :: k in p2 ==> r[k] == p2[k])
      && (forall k :: k in p1 && k !in p2 ==> r[k] == p1[k])
      && (forall k :: k in stored && k !in p1 && k !in p2 ==> r[k] == stored[k])
  {
    var key := NormaliseId(ns, id);
    var t1 := Merge(db.objects[Str(key)], p1);
    assert Field(t1, "_id") == Str(key);
    var s1 := ExtendObject(db, ns, id, p1);
    assert s1.db.objects[Str(key)] == t1;
    var t2 := Merge(t1, p2);
    assert Field(t2, "_id") == Str(key);
  }

  /** `extendObject` does not stamp the id: on an absent id a partial object
      without `_id` reaches `publishObject` without one, so the store, which
      keys records by `_id`, files it under `undefined`; it is reported so. */
  lemma ExtendObjectAbsentUnstamped(db: Db, ns: string, id: string, obj: Record)
    requires !db.HasObject(NormaliseId(ns, id)) && "_id" !in obj
    ensures var s := ExtendObject(db, ns, id, obj);
      && s.db.objects == db.objects[Undefined := obj]
      && !s.db.HasObject(NormaliseId(ns, id))
      && s.reply[1] == Obj(map["id" := Undefined, "value" := Obj(obj)])
  {
    assert Merge(map[], obj) == obj;
  }

  /** On a record whose `_id` is its key, and a partial object that leaves
      `_id` alone, the in-place merge of `extendForeignObject` has the same
      effect and report as `extendObject` on the corresponding local id. */
  lemma ExtendForeignAgreesWithExtend(db: Db, ns: string, id: string, obj: Record)
    requires var key := NormaliseId(ns, id);
      db.HasObject(key) && Field(db.objects[Str(key)], "_id") == Str(key)
    requires "_id" !in obj
    ensures ExtendForeignObject(db, NormaliseId(ns, id), obj) == ExtendObject(db, ns, id, obj)
  {
    var key := NormaliseId(ns, id);
    var target := Merge(db.objects[Str(key)], obj);
    assert Field(target, "_id") == Str(key);
  }
}
