/** The event shapes carried on the bus (`src/event_bus.rs`) and the bus itself,
    seen as an append-only log of published events.

    Of the broadcast channel only one fact is kept: a send is refused when no
    receiver is alive, and then nothing is published. Capacity, lag and
    per-receiver cursors are not part of this model. */
module EventBus {
  import opened Results

  /** An IEEE-754 single-precision value, carried through unchanged (never computed on). */
  datatype F32 = F32(bits: bv32)

  /** A wall-clock instant, carried through unchanged. */
  datatype SystemTime = SystemTime(nanosSinceEpoch: int)

  datatype Reading = Reading(time: SystemTime, name: string, value: F32, unit: string, category: string)

  datatype EventKind = Message(text: string) | Reading(reading: Reading)

  /** `Event { module, inner }`; the field is called `moduleName` because `module` is a keyword. */
  datatype Event = Event(moduleName: string, inner: EventKind)

  /** The broadcast send error: it hands the unsent event back. */
  datatype SendError = NoReceivers(event: Event)

  /** The channel state: everything published so far, in publish order, and how many
      receivers are currently alive. */
  datatype Bus = Bus(published: seq<Event>, receivers: nat)

  /** `EventBus::new`: a fresh channel whose handle owns one receiver. */
  function New(): (b: Bus)
    ensures b.published == []
    ensures b.receivers == 1
  {
    Bus([], 1)
  }

  /** `EventBus::subscribe` (and the receiver half of `EventBus::clone`): one more live
      receiver, nothing published. */
  function Subscribe(bus: Bus): (b: Bus)
    ensures b.published == bus.published
    ensures b.receivers == bus.receivers + 1
  {
    bus.(receivers := bus.receivers + 1)
  }

  /** `Sender::send`: appends the event when some receiver is alive, refuses it otherwise. */
  function Publish(bus: Bus, e: Event): (r: Result<Bus, SendError>)
    ensures r.Ok? <==> bus.receivers > 0
    ensures r.Ok? ==> r.value.published == bus.published + [e] && r.value.receivers == bus.receivers
    ensures r.Err? ==> r.error.event == e
  {
    if bus.receivers == 0 then Err(NoReceivers(e))
    else Ok(Bus(bus.published + [e], bus.receivers))
  }
}
