/** Call sequences on a fresh adapter mock over an empty store, each stating
    what a test observing the mock would see. */
module Scenarios {
  import opened Values
  import opened Namespaces
  import opened Store
  import opened Events
  import opened AdapterMocks
  import Properties

  method EmptyMock(options: Options) returns (mock: AdapterMock)
    ensures fresh(mock.db) && mock.options == options
    ensures mock.db.content == Db(map[], map[], [])
    ensures mock.namespace == MakeNamespace(options.name, options.instance)
  {
    var db := new Database(Db(map[], map[], []),
                           (objects: map<Value, Record>, pattern: string, t: Value) => Null,
                           (states: map<string, StateRec>, pattern: string) => Null);
    mock := new AdapterMock(db, options);
  }

  /** A `stateChange` handler given in the options is the slot's handler; `on`
      replaces it; a direct write to the options is seen through the slot;
      `removeAllListeners()` clears it. */
  method HandlerSlotLifecycle() returns (seen: seq<Value>)
    ensures seen == [Func(1), Func(2), Func(3), Undefined]
  {
    var options := new Options(None, None, Undefined);
    options.stateChange := Func(1);
    var mock := EmptyMock(options);
    seen := [mock.Handler(StateChange)];
    var self := mock.On(Str("stateChange"), Func(2));
    seen := seen + [mock.Handler(StateChange)];
    options.stateChange := Func(3);
    seen := seen + [mock.Handler(StateChange)];
    self := mock.RemoveAllListeners(Undefined);
    seen := seen + [mock.Handler(StateChange)];
  }

  /** Two `setObjectNotExists` calls with different payloads on a fresh mock:
      `getObject` returns the first payload, stamped with `test.0.<id>`. */
  method SetObjectNotExistsTwice(id: string, first: Record, second: Record) returns (stored: Option<seq<Value>>)
    requires !StartsWith(id, "test.0")
    ensures stored == Some([Null, Obj(first["_id" := Str("test.0." + id)])])
  {
    var options := new Options(None, None, Undefined);
    var mock := EmptyMock(options);
    Namespaces.DefaultNamespace();
    assert NormaliseId(mock.namespace, id) == "test.0." + id;
    var reply := mock.SetObjectNotExists(id, first, []);
    reply := mock.SetObjectNotExists(id, second, []);
    stored := mock.GetObject(id, [Func(0)]);
  }

  /** `setStateChanged` twice with the same value on a fresh mock: the store
      sees exactly one publication, and both calls report the id. */
  method SetStateChangedTwice(id: string, v: Value) returns (publications: nat, replies: seq<Option<seq<Value>>>)
    requires !StartsWith(id, "test.0")
    ensures publications == 1
    ensures replies == [Some([Null, Str("test.0." + id)]), Some([Null, Str("test.0." + id)])]
  {
    var options := new Options(None, None, Undefined);
    var mock := EmptyMock(options);
    Namespaces.DefaultNamespace();
    assert NormaliseId(mock.namespace, id) == "test.0." + id;
    var r1 := mock.SetStateChanged(id, v, Bool(true), [Func(0)]);
    var r2 := mock.SetStateChanged(id, v, Bool(true), [Func(0)]);
    publications := |mock.db.content.stateLog|;
    replies := [r1, r2];
  }

  /** `extendObject(id, {a: 1})` then `extendObject(id, {b: 2})` on a record
      created by `setObject`: the stored record holds both properties. */
  method ExtendObjectTwice(id: string) returns (stored: Record)
    ensures "a" in stored && stored["a"] == Num(1)
    ensures "b" in stored && stored["b"] == Num(2)
  {
    var options := new Options(None, None, Undefined);
    var mock := EmptyMock(options);
    var key := NormaliseId(mock.namespace, id);
    var reply := mock.SetObject(id, map[], []);
    Properties.ExtendObjectTwice(mock.db.content, mock.namespace, id, map["a" := Num(1)], map["b" := Num(2)]);
    reply := mock.ExtendObject(id, map["a" := Num(1)], []);
    reply := mock.ExtendObject(id, map["b" := Num(2)], []);
    stored := mock.db.content.objects[Str(key)];
  }

  /** `terminate("disk full")` and `terminate()` both throw, with the given
      reason and with the fixed text respectively. */
  method TerminateReasons() returns (withReason: Completion<()>, withoutReason: Completion<()>)
    ensures withReason == Threw(AdapterTerminated(Str("disk full")))
    ensures withoutReason == Threw(AdapterTerminated(Str("no reason given!")))
  {
    var options := new Options(None, None, Undefined);
    var mock := EmptyMock(options);
    withReason := mock.Terminate(Str("disk full"));
    withoutReason := mock.Terminate(Undefined);
  }
}
