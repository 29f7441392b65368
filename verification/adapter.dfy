/** The adapter mock: the namespace, the store-backed object and state
    methods, the event handler slots and `terminate`. */
module AdapterMocks {
  import opened Values
  import opened Namespaces
  import opened Store
  import opened Calls
  import opened Events
  import Op = Operations

  /** Errors thrown synchronously by the mock. */
  datatype Error =
    | TypeError                                 // calling a value that is not a function
    | AdapterTerminated(terminateReason: Value) // thrown by `terminate`

  /** How a call ends: it returns a value or throws. */
  datatype Completion<T> = Returned(value: T) | Threw(error: Error)

  /** The options record handed to the factory. The mock keeps a reference
      to it: its five handler fields are the mock's handler slots. */
  class Options {
    var name: Option<string>
    var instance: Option<int>
    var config: Value
    var ready: Value
    var message: Value
    var objectChange: Value
    var stateChange: Value
    var unload: Value

    constructor (name: Option<string>, instance: Option<int>, config: Value)
      ensures this.name == name && this.instance == instance && this.config == config
      ensures ready == message == objectChange == stateChange == unload == Undefined
    {
      this.name := name;
      this.instance := instance;
      this.config := config;
      ready, message, objectChange, stateChange, unload := Undefined, Undefined, Undefined, Undefined, Undefined;
    }
  }

  class AdapterMock {
    const db: Database
    const options: Options
    const name: string
    const instance: int
    const namespace: string
    const config: Value

    /** `createAdapterMock(db, options)`. */
    constructor (db: Database, options: Options)
      ensures this.db == db && this.options == options
      ensures name == AdapterName(options.name) && instance == AdapterInstance(options.instance)
      ensures namespace == MakeNamespace(options.name, options.instance)
      ensures Truthy(options.config) ==> config == options.config
      ensures !Truthy(options.config) ==> config == Obj(map[])
    {
      this.db := db;
      this.options := options;
      name := AdapterName(options.name);
      instance := AdapterInstance(options.instance);
      namespace := MakeNamespace(options.name, options.instance);
      config := if Truthy(options.config) then options.config else Obj(map[]);
    }

    // ---- handler slots ----

    /** The getter of `readyHandler`, `messageHandler`, `objectChangeHandler`,
        `stateChangeHandler` and `unloadHandler`: it reads the options record,
        so later changes to the options are seen. */
    function Handler(slot: Slot): (h: Value)
      reads options
      ensures SlotName(slot) == "ready" ==> h == options.ready
      ensures SlotName(slot) == "message" ==> h == options.message
      ensures SlotName(slot) == "objectChange" ==> h == options.objectChange
      ensures SlotName(slot) == "stateChange" ==> h == options.stateChange
      ensures SlotName(slot) == "unload" ==> h == options.unload
    {
      match slot
      case Ready => options.ready
      case Message => options.message
      case ObjectChange => options.objectChange
      case StateChange => options.stateChange
      case Unload => options.unload
    }

    /** The setter of the same properties: it writes the options record. */
    method SetHandler(slot: Slot, handler: Value)
      modifies options`ready, options`message, options`objectChange, options`stateChange, options`unload
      ensures Handler(slot) == handler
      ensures forall s :: s != slot ==> Handler(s) == old(Handler(s))
    {
      match slot
      case Ready => options.ready := handler;
      case Message => options.message := handler;
      case ObjectChange => options.objectChange := handler;
      case StateChange => options.stateChange := handler;
      case Unload => options.unload := handler;
    }

    /** `on(event, handler)`: fills exactly the slot the event names,
        overwriting its handler; an unknown event changes nothing. */
    method On(event: Value, handler: Value) returns (self: AdapterMock)
      modifies options`ready, options`message, options`objectChange, options`stateChange, options`unload
      ensures self == this
      ensures forall s :: Handler(s) == if SlotOf(event) == Some(s) then handler else old(Handler(s))
    {
      var slot := SlotOf(event);
      if slot.Some? {
        SetHandler(slot.value, handler);
      }
      self := this;
    }

    /** `removeListener(event, listener)`: clears the slot the event names,
        whatever listener is passed. */
    method RemoveListener(event: Value, listener: Value) returns (self: AdapterMock)
      modifies options`ready, options`message, options`objectChange, options`stateChange, options`unload
      ensures self == this
      ensures forall s :: Handler(s) == if SlotOf(event) == Some(s) then Undefined else old(Handler(s))
    {
      var slot := SlotOf(event);
      if slot.Some? {
        SetHandler(slot.value, Undefined);
      }
      self := this;
    }

    /** `removeAllListeners(event)`: clears every slot when the event is
        falsy (in particular when it is left out), otherwise the one it names. */
    method RemoveAllListeners(event: Value) returns (self: AdapterMock)
      modifies options`ready, options`message, options`objectChange, options`stateChange, options`unload
      ensures self == this
      ensures forall s :: Handler(s) == if !Truthy(event) || event == Str(SlotName(s)) then Undefined else old(Handler(s))
    {
      if !Truthy(event) || event == Str("ready") {
        SetHandler(Ready, Undefined);
      }
      if !Truthy(event) || event == Str("message") {
        SetHandler(Message, Undefined);
      }
      if !Truthy(event) || event == Str("objectChange") {
        SetHandler(ObjectChange, Undefined);
      }
      if !Truthy(event) || event == Str("stateChange") {
        SetHandler(StateChange, Undefined);
      }
      if !Truthy(event) || event == Str("unload") {
        SetHandler(Unload, Undefined);
      }
      self := this;
    }

    /** `terminate(reason)`: never returns; it throws an error whose
        `terminateReason` is the reason, or a fixed text for a falsy one. */
    method Terminate(reason: Value) returns (c: Completion<()>)
      ensures c.Threw? && c.error.AdapterTerminated?
      ensures Truthy(reason) ==> c.error.terminateReason == reason
      ensures !Truthy(reason) ==> c.error.terminateReason == Str("no reason given!")
    {
      c := Threw(AdapterTerminated(TerminateReason(reason)));
    }

    // ---- objects ----

    /** `getObject(id, ...args)`: the record at the normalised id, or `null`. */
    method GetObject(id: string, args: seq<Value>) returns (reply: Option<seq<Value>>)
      ensures reply == Deliver(args, [Null, db.content.ObjectAt(NormaliseId(namespace, id))])
    {
      var key := NormaliseId(namespace, id);
      reply := Deliver(args, [Null, db.content.ObjectAt(key)]);
    }

    /** `getForeignObject(id, ...args)`: the record at the id as given, or `null`. */
    method GetForeignObject(id: string, args: seq<Value>) returns (reply: Option<seq<Value>>)
      ensures reply == Deliver(args, [Null, db.content.ObjectAt(id)])
    {
      reply := Deliver(args, [Null, db.content.ObjectAt(id)]);
    }

    /** `getForeignObjects(pattern, type, ...args)`: the store's answer to the
        pattern as given; the callback comes after the type argument. */
    method GetForeignObjects(pattern: string, objectType: Value, args: seq<Value>) returns (reply: Option<seq<Value>>)
      ensures reply == Deliver(args, [Null, db.matchObjects(db.content.objects, pattern, objectType)])
    {
      reply := Deliver(args, [Null, db.matchObjects(db.content.objects, pattern, objectType)]);
    }

    /** `getAdapterObjects(callback)`: the objects under `namespace.*`, passed
        as the callback's only argument; the callback is called unconditionally,
        so anything but a function makes the call throw. */
    method GetAdapterObjects(callback: Value) returns (c: Completion<seq<Value>>)
      ensures callback.Func? ==> c == Returned([db.matchObjects(db.content.objects, namespace + ".*", Undefined)])
      ensures !callback.Func? ==> c == Threw(TypeError)
    {
      if callback.Func? {
        c := Returned([db.matchObjects(db.content.objects, namespace + ".*", Undefined)]);
      } else {
        c := Threw(TypeError);
      }
    }

    /** `setObject(id, obj, ...args)`. */
    method SetObject(id: string, obj: Record, args: seq<Value>) returns (reply: Option<seq<Value>>)
      modifies db
      ensures var s := Op.SetObject(old(db.content), namespace, id, obj);
        db.content == s.db && reply == Deliver(args, s.reply)
    {
      var key := NormaliseId(namespace, id);
      var stamped := Op.Stamp(obj, key);
      db.content := db.content.PublishObject(stamped);
      reply := Deliver(args, [Null, Op.IdReply(key)]);
    }

    /** `setObjectNotExists(id, obj, ...args)`: re-enters `setObject` with
        the normalised id and the callback as its only trailing argument. */
    method SetObjectNotExists(id: string, obj: Record, args: seq<Value>) returns (reply: Option<seq<Value>>)
      modifies db
      ensures var s := Op.SetObjectNotExists(old(db.content), namespace, id, obj);
        db.content == s.db && reply == Deliver(args, s.reply)
    {
      var key := NormaliseId(namespace, id);
      var callback := GetCallback(args);
      if db.content.HasObject(key) {
        reply := Deliver(args, [Null, Op.IdReply(key)]);
      } else {
        NormaliseIdIdempotent(namespace, id);
        CallbackArgumentForwards(args);
        reply := SetObject(key, obj, [CallbackArgument(callback)]);
      }
    }

    /** `extendObject(id, obj, ...args)`. */
    method ExtendObject(id: string, obj: Record, args: seq<Value>) returns (reply: Option<seq<Value>>)
      modifies db
      ensures var s := Op.ExtendObject(old(db.content), namespace, id, obj);
        db.content == s.db && reply == Deliver(args, s.reply)
    {
      var key := NormaliseId(namespace, id);
      var existing := db.content.RecordOrEmpty(key);
      var target := Op.Merge(existing, obj);
      db.content := db.content.PublishObject(target);
      reply := Deliver(args, Op.ExtendReply(target, key));
    }

    /** `delObject(id, ...args)`. */
    method DelObject(id: string, args: seq<Value>) returns (reply: Option<seq<Value>>)
      modifies db
      ensures var s := Op.DelObject(old(db.content), namespace, id);
        db.content == s.db && reply == Deliver(args, s.reply)
    {
      var key := NormaliseId(namespace, id);
      db.content := db.content.DeleteObject(key);
      reply := Deliver(args, [Undefined]);
    }

    /** `setForeignObject(id, obj, ...args)`. */
    method SetForeignObject(id: string, obj: Record, args: seq<Value>) returns (reply: Option<seq<Value>>)
      modifies db
      ensures var s := Op.SetForeignObject(old(db.content), id, obj);
        db.content == s.db && reply == Deliver(args, s.reply)
    {
      var stamped := Op.Stamp(obj, id);
      db.content := db.content.PublishObject(stamped);
      reply := Deliver(args, [Null, Op.IdReply(id)]);
    }

    /** `setForeignObjectNotExists(id, obj, ...args)`: an absent id goes
        through the local `setObject`. */
    method SetForeignObjectNotExists(id: string, obj: Record, args: seq<Value>) returns (reply: Option<seq<Value>>)
      modifies db
      ensures var s := Op.SetForeignObjectNotExists(old(db.content), namespace, id, obj);
        db.content == s.db && reply == Deliver(args, s.reply)
    {
      var callback := GetCallback(args);
      if db.content.HasObject(id) {
        reply := Deliver(args, [Null, Op.IdReply(id)]);
      } else {
        CallbackArgumentForwards(args);
        reply := SetObject(id, obj, [CallbackArgument(callback)]);
      }
    }

    /** `extendForeignObject(id, obj, ...args)`: the partial object is
        assigned into the stored record itself before it is published. */
    method ExtendForeignObject(id: string, obj: Record, args: seq<Value>) returns (reply: Option<seq<Value>>)
      modifies db
      ensures var s := Op.ExtendForeignObject(old(db.content), id, obj);
        db.content == s.db && reply == Deliver(args, s.reply)
    {
      var target := Op.Merge(db.content.RecordOrEmpty(id), obj);
      if db.content.HasObject(id) {
        db.content := db.content.(objects := db.content.objects[Str(id) := target]);
      }
      db.content := db.content.PublishObject(target);
      reply := Deliver(args, Op.ExtendReply(target, id));
    }

    /** `delForeignObject(id, ...args)`. */
    method DelForeignObject(id: string, args: seq<Value>) returns (reply: Option<seq<Value>>)
      modifies db
      ensures var s := Op.DelForeignObject(old(db.content), id);
        db.content == s.db && reply == Deliver(args, s.reply)
    {
      db.content := db.content.DeleteObject(id);
      reply := Deliver(args, [Undefined]);
    }

    // ---- states ----

    /** `setState(id, state, ack, ...args)`: the callback comes after the
        `ack` argument. */
    method SetState(id: string, state: Value, ack: Value, args: seq<Value>) returns (reply: Option<seq<Value>>)
      modifies db
      ensures var s := Op.SetState(old(db.content), namespace, id, state, ack);
        db.content == s.db && reply == Deliver(args, s.reply)
    {
      var key := NormaliseId(namespace, id);
      var st := ResolveState(state, ack);
      db.content := db.content.PublishState(key, st);
      reply := Deliver(args, [Null, Str(key)]);
    }

    /** `setStateChanged(id, state, ack, ...args)`. */
    method SetStateChanged(id: string, state: Value, ack: Value, args: seq<Value>) returns (reply: Option<seq<Value>>)
      modifies db
      ensures var s := Op.SetStateChanged(old(db.content), namespace, id, state, ack);
        db.content == s.db && reply == Deliver(args, s.reply)
    {
      var st := ResolveState(state, ack);
      var key := NormaliseId(namespace, id);
      if !db.content.HasState(key) || db.content.StateAt(key).fields["val"] != st.val {
        db.content := db.content.PublishState(key, st);
      }
      reply := Deliver(args, [Null, Str(key)]);
    }

    /** `setForeignState(id, state, ack, ...args)`. */
    method SetForeignState(id: string, state: Value, ack: Value, args: seq<Value>) returns (reply: Option<seq<Value>>)
      modifies db
      ensures var s := Op.SetForeignState(old(db.content), id, state, ack);
        db.content == s.db && reply == Deliver(args, s.reply)
    {
      var st := ResolveState(state, ack);
      db.content := db.content.PublishState(id, st);
      reply := Deliver(args, [Null, Str(id)]);
    }

    /** `setForeignStateChanged(id, state, ack, ...args)`. */
    method SetForeignStateChanged(id: string, state: Value, ack: Value, args: seq<Value>) returns (reply: Option<seq<Value>>)
      modifies db
      ensures var s := Op.SetForeignStateChanged(old(db.content), id, state, ack);
        db.content == s.db && reply == Deliver(args, s.reply)
    {
      var st := ResolveState(state, ack);
      if !db.content.HasState(id) || db.content.StateAt(id).fields["val"] != st.val {
        db.content := db.content.PublishState(id, st);
      }
      reply := Deliver(args, [Null, Str(id)]);
    }

    /** `getState(id, ...args)`: the state at the normalised id, or `undefined`. */
    method GetState(id: string, args: seq<Value>) returns (reply: Option<seq<Value>>)
      ensures reply == Deliver(args, [Null, db.content.StateAt(NormaliseId(namespace, id))])
    {
      var key := NormaliseId(namespace, id);
      reply := Deliver(args, [Null, db.content.StateAt(key)]);
    }

    /** `getForeignState(id, ...args)`: the state at the id as given, or `undefined`. */
    method GetForeignState(id: string, args: seq<Value>) returns (reply: Option<seq<Value>>)
      ensures reply == Deliver(args, [Null, db.content.StateAt(id)])
    {
      reply := Deliver(args, [Null, db.content.StateAt(id)]);
    }

    /** `getStates(pattern, ...args)`: the pattern is normalised like an id
        before the store matches it. */
    method GetStates(pattern: string, args: seq<Value>) returns (reply: Option<seq<Value>>)
      ensures reply == Deliver(args, [Null, db.matchStates(db.content.states, NormaliseId(namespace, pattern))])
    {
      var qualified := NormaliseId(namespace, pattern);
      reply := Deliver(args, [Null, db.matchStates(db.content.states, qualified)]);
    }

    /** `getForeignStates(pattern, ...args)`: the pattern as given. */
    method GetForeignStates(pattern: string, args: seq<Value>) returns (reply: Option<seq<Value>>)
      ensures reply == Deliver(args, [Null, db.matchStates(db.content.states, pattern)])
    {
      reply := Deliver(args, [Null, db.matchStates(db.content.states, pattern)]);
    }

    /** `delState(id, ...args)`. */
    method DelState(id: string, args: seq<Value>) returns (reply: Option<seq<Value>>)
      modifies db
      ensures var s := Op.DelState(old(db.content), namespace, id);
        db.content == s.db && reply == Deliver(args, s.reply)
    {
      var key := NormaliseId(namespace, id);
      db.content := db.content.DeleteState(key);
      reply := Deliver(args, [Undefined]);
    }

    /** `delForeignState(id, ...args)`. */
    method DelForeignState(id: string, args: seq<Value>) returns (reply: Option<seq<Value>>)
      modifies db
      ensures var s := Op.DelForeignState(old(db.content), id);
        db.content == s.db && reply == Deliver(args, s.reply)
    {
      db.content := db.content.DeleteState(id);
      reply := Deliver(args, [Undefined]);
    }
  }
}
