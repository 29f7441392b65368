/** The five lifecycle events an adapter can register a handler for. */
module Events {
  import opened Values

  datatype Slot = Ready | Message | ObjectChange | StateChange | Unload

  /** The event name that selects a slot. */
  function SlotName(s: Slot): string {
    match s
    case Ready => "ready"
    case Message => "message"
    case ObjectChange => "objectChange"
    case StateChange => "stateChange"
    case Unload => "unload"
  }

  /** The slot an event name selects in the `switch` of `on` and
      `removeListener`; any other value selects none. */
  function SlotOf(event: Value): (r: Option<Slot>)
    ensures r.Some? ==> event == Str(SlotName(r.value))
    ensures r.None? ==> forall s :: event != Str(SlotName(s))
  {
    match event
    case Str(e) =>
      if e == "ready" then Some(Ready)
      else if e == "message" then Some(Message)
      else if e == "objectChange" then Some(ObjectChange)
      else if e == "stateChange" then Some(StateChange)
      else if e == "unload" then Some(Unload)
      else None
    case _ => None
  }

  /** Every slot is selected by its own name and by no other. */
  lemma SlotOfName(s: Slot, t: Slot)
    ensures SlotOf(Str(SlotName(s))) == Some(s)
    ensures SlotName(s) == SlotName(t) ==> s == t
  {
  }
}
