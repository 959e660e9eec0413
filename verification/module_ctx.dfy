/** `ModuleCtx` (`src/module.rs`): a module's name bound to a sender and a receiver of
    the shared bus. Every send stamps the payload with that name. */
module ModuleContext {
  import opened Results
  import opened EventBus

  datatype ModuleCtx = ModuleCtx(name: string)

  /** `ModuleCtx::new`: keeps `name` verbatim and subscribes one receiver, which the
      context owns for as long as it lives. */
  function New(name: string, bus: Bus): (r: (ModuleCtx, Bus))
    ensures r.0.name == name
    ensures r.1.published == bus.published
    ensures r.1.receivers == bus.receivers + 1
  {
    (ModuleCtx(name), Subscribe(bus))
  }

  /** `ModuleCtx::send`. The source unwraps the send result, which panics when no
      receiver is alive; the context's own receiver keeps the count positive, so the
      precondition is the context's liveness. */
  function Send(ctx: ModuleCtx, bus: Bus, kind: EventKind): (out: Bus)
    requires bus.receivers > 0
    ensures out.published == bus.published + [Event(ctx.name, kind)]
    ensures out.receivers == bus.receivers
  {
    Publish(bus, Event(ctx.name, kind)).value
  }

  /** `ModuleCtx::send_message`. */
  function SendMessage(ctx: ModuleCtx, bus: Bus, message: string): (out: Bus)
    requires bus.receivers > 0
    ensures out.published == bus.published + [Event(ctx.name, Message(message))]
    ensures out.receivers == bus.receivers
  {
    Send(ctx, bus, Message(message))
  }

  /** `ModuleCtx::send_reading`. */
  function SendReading(ctx: ModuleCtx, bus: Bus, reading: Reading): (out: Bus)
    requires bus.receivers > 0
    ensures out.published == bus.published + [Event(ctx.name, EventKind.Reading(reading))]
    ensures out.receivers == bus.receivers
  {
    Send(ctx, bus, EventKind.Reading(reading))
  }

  /** The events a context publishes for the payloads `kinds`, in order. */
  function Stamp(name: string, kinds: seq<EventKind>): (es: seq<Event>)
    ensures |es| == |kinds|
    ensures forall i :: 0 <= i < |kinds| ==> es[i].moduleName == name && es[i].inner == kinds[i]
  {
    seq(|kinds|, i requires 0 <= i < |kinds| => Event(name, kinds[i]))
  }

  /** Several sends in a row, last payload last. */
  function SendAll(ctx: ModuleCtx, bus: Bus, kinds: seq<EventKind>): (out: Bus)
    requires bus.receivers > 0
    ensures out.published == bus.published + Stamp(ctx.name, kinds)
    ensures out.receivers == bus.receivers
  {
    if kinds == [] then bus
    else Send(ctx, SendAll(ctx, bus, kinds[..|kinds| - 1]), kinds[|kinds| - 1])
  }

  /** Every event a context publishes, over any run of sends, carries the context's
      name and is appended after everything published before. */
  lemma {:induction false} SendAllStampsEveryEvent(ctx: ModuleCtx, bus: Bus, kinds: seq<EventKind>)
    requires bus.receivers > 0
    ensures var out := SendAll(ctx, bus, kinds);
      && bus.published <= out.published
      && forall i :: |bus.published| <= i < |out.published| ==> out.published[i].moduleName == ctx.name
  {
    var out := SendAll(ctx, bus, kinds);
    assert out.published[..|bus.published|] == bus.published;
    forall i | |bus.published| <= i < |out.published|
      ensures out.published[i].moduleName == ctx.name
    {
      assert out.published[i] == Stamp(ctx.name, kinds)[i - |bus.published|];
    }
  }

  /** A context built by `New` can send: its own receiver is counted. */
  lemma NewContextCanSend(name: string, bus: Bus, kind: EventKind)
    ensures var (ctx, b) := New(name, bus);
      Send(ctx, b, kind).published == bus.published + [Event(name, kind)]
  {
  }

  /** Start-up: the four module contexts created on one fresh bus. Nothing is published
      yet, five receivers are alive (the bus handle's own and one per context), and each
      context keeps the name it was given. */
  lemma StartupContexts()
    ensures var (logger, b1) := New("logger", EventBus.New());
      var (network, b2) := New("network", b1);
      var (monitoring, b3) := New("monitoring", b2);
      var (uploader, b4) := New("uploader", b3);
      && b4.published == []
      && b4.receivers == 5
      && [logger.name, network.name, monitoring.name, uploader.name]
        == ["logger", "network", "monitoring", "uploader"]
  {
  }
}
