/** The OPC UA ingester (`src/modules/opcua.rs`): data-change notifications become text
    message events stamped with the module's name, the subscription is created with fixed
    parameters over a fixed list of five variables, and `run` is a short sequence of
    client actions whose outcome depends on what the server answers.

    `Variant` and `StatusCode` are type parameters `V` and `S`; how they print (`{:?}` and
    `{}`) belongs to the client library and is passed in as a `Formatter`. */
module Opcua {
  import opened Results
  import opened EventBus
  import opened ModuleContext

  newtype U16 = x: int | 0 <= x < 0x1_0000

  /** The parts of a `DataValue` the ingester reads. */
  datatype DataValue<V, S> = DataValue(value: Option<V>, status: Option<S>)

  /** `{:?}` of a variant and `{}` of a status code. */
  datatype Formatter<!V, !S> = Formatter(debugVariant: V -> string, displayStatus: S -> string)

  const StatusPrefix: string := "Error: "
  const NoValueOrStatus: string := "No value or status"

  /** `data_value_to_string`: the value if there is one, else the status, else a placeholder. */
  function DataValueToString<V, S>(dv: DataValue<V, S>, fmt: Formatter<V, S>): (s: string)
    ensures dv.value.Some? ==> s == fmt.debugVariant(dv.value.value)
    ensures dv.value.None? && dv.status.Some? ==> s == StatusPrefix + fmt.displayStatus(dv.status.value)
    ensures dv.value.None? && dv.status.None? ==> s == NoValueOrStatus
  {
    if dv.value.Some? then fmt.debugVariant(dv.value.value)
    else if dv.status.Some? then "Error: " + fmt.displayStatus(dv.status.value)
    else "No value or status"
  }

  /** The rendering the data-change callback performs inline, as it is written there. */
  function CallbackText<V, S>(dv: DataValue<V, S>, fmt: Formatter<V, S>): string
  {
    match dv
    case DataValue(Some(v), _) => fmt.debugVariant(v)
    case DataValue(None, Some(st)) => "Error: " + fmt.displayStatus(st)
    case DataValue(None, None) => "No value or status"
  }

  /** The callback's copy of the rendering agrees with `data_value_to_string` everywhere. */
  lemma CallbackTextAgrees<V, S>(dv: DataValue<V, S>, fmt: Formatter<V, S>)
    ensures CallbackText(dv, fmt) == DataValueToString(dv, fmt)
  {
  }

  /** When no variant prints like a status or like the placeholder, the text alone tells
      which of the three cases a notification was in. */
  lemma RenderingIdentifiesCase<V, S>(dv: DataValue<V, S>, fmt: Formatter<V, S>)
    requires forall v :: !(StatusPrefix <= fmt.debugVariant(v))
    requires forall v :: fmt.debugVariant(v) != NoValueOrStatus
    ensures StatusPrefix <= DataValueToString(dv, fmt) <==> dv.value.None? && dv.status.Some?
    ensures DataValueToString(dv, fmt) == NoValueOrStatus <==> dv.value.None? && dv.status.None?
  {
    var s := DataValueToString(dv, fmt);
    if dv.value.None? && dv.status.Some? {
      assert s[0] == 'E';
      assert s != NoValueOrStatus;
    }
    if dv.value.None? && dv.status.None? {
      assert s[0] == 'N';
    }
  }

  /** The `DataChangeCallback` body: one message stamped with the captured module name,
      published through a clone of the context's sender. A refused send is reported on
      stderr and dropped; it never reaches the caller. */
  function OnDataChange<V, S>(moduleName: string, bus: Bus, dv: DataValue<V, S>, fmt: Formatter<V, S>): (out: Bus)
    ensures out.receivers == bus.receivers
    ensures bus.receivers > 0 ==>
      out.published == bus.published + [Event(moduleName, Message(DataValueToString(dv, fmt)))]
    ensures bus.receivers == 0 ==> out == bus
  {
    match Publish(bus, Event(moduleName, Message(CallbackText(dv, fmt))))
    case Ok(b) => b
    case Err(_) => bus
  }

  /** With a live receiver, the callback does exactly what `send_message` of the rendering
      does on the ingester's own context. */
  lemma CallbackIsSendMessage<V, S>(ctx: ModuleCtx, bus: Bus, dv: DataValue<V, S>, fmt: Formatter<V, S>)
    requires bus.receivers > 0
    ensures OnDataChange(ctx.name, bus, dv, fmt) == SendMessage(ctx, bus, DataValueToString(dv, fmt))
  {
  }

  /** The message payloads for a run of notifications. */
  function Renderings<V, S>(dvs: seq<DataValue<V, S>>, fmt: Formatter<V, S>): (ks: seq<EventKind>)
    ensures |ks| == |dvs|
    ensures forall i :: 0 <= i < |dvs| ==> ks[i] == Message(DataValueToString(dvs[i], fmt))
  {
    seq(|dvs|, i requires 0 <= i < |dvs| => Message(DataValueToString(dvs[i], fmt)))
  }

  /** The callback applied to each notification in arrival order. */
  function OnDataChanges<V, S>(moduleName: string, bus: Bus, dvs: seq<DataValue<V, S>>, fmt: Formatter<V, S>): (out: Bus)
    ensures out.receivers == bus.receivers
    ensures bus.receivers > 0 ==> out.published == bus.published + Stamp(moduleName, Renderings(dvs, fmt))
    ensures bus.receivers == 0 ==> out == bus
  {
    if dvs == [] then bus
    else OnDataChange(moduleName, OnDataChanges(moduleName, bus, dvs[..|dvs| - 1], fmt), dvs[|dvs| - 1], fmt)
  }

  /** The ingester never publishes a reading, and every event it publishes carries its name. */
  lemma {:induction false} IngestPublishesOnlyMessages<V, S>(moduleName: string, bus: Bus, dvs: seq<DataValue<V, S>>, fmt: Formatter<V, S>)
    ensures var out := OnDataChanges(moduleName, bus, dvs, fmt);
      forall i :: |bus.published| <= i < |out.published| ==>
        out.published[i].moduleName == moduleName && out.published[i].inner.Message?
  {
    var out := OnDataChanges(moduleName, bus, dvs, fmt);
    if bus.receivers > 0 {
      forall i | |bus.published| <= i < |out.published|
        ensures out.published[i].moduleName == moduleName && out.published[i].inner.Message?
      {
        var j := i - |bus.published|;
        assert out.published[i] == Stamp(moduleName, Renderings(dvs, fmt))[j];
        assert Renderings(dvs, fmt)[j] == Message(DataValueToString(dvs[j], fmt));
      }
    }
  }

  /** A value notification followed by a status-only notification: two messages, the
      variant's text and the status's text behind "Error: ", both under the module's name. */
  lemma ValueThenStatusScenario<V, S>(moduleName: string, bus: Bus, fmt: Formatter<V, S>, v: V, bad: S)
    requires bus.receivers > 0
    ensures OnDataChanges(moduleName, bus, [DataValue(Some(v), None), DataValue(None, Some(bad))], fmt).published
      == bus.published + [
        Event(moduleName, Message(fmt.debugVariant(v))),
        Event(moduleName, Message("Error: " + fmt.displayStatus(bad)))]
  {
    var dvs := [DataValue(Some(v), None), DataValue(None, Some(bad))];
    var expected := [
        Event(moduleName, Message(fmt.debugVariant(v))),
        Event(moduleName, Message("Error: " + fmt.displayStatus(bad)))];
    assert Stamp(moduleName, Renderings(dvs, fmt)) == expected;
  }

  // ---- Monitored items and subscription parameters ----

  datatype NodeId = NodeId(namespace: U16, identifier: string)

  datatype TimestampsToReturn = Source | Server | Both | Neither

  const VariableKeys: seq<string> := ["v1", "v2", "v3", "v4", "v5"]

  /** The decimal digit character for `d`. */
  function DigitChar(d: nat): char
    requires d < 10
  {
    ('0' as int + d) as char
  }

  /** `items_to_create`: node `(ns, "v<k>")` for k = 1 to 5, in that order. */
  function ItemsToCreate(ns: U16): (items: seq<NodeId>)
    ensures |items| == 5
    ensures forall i :: 0 <= i < |items| ==> items[i] == NodeId(ns, ['v', DigitChar(i + 1)])
  {
    seq(|VariableKeys|, i requires 0 <= i < |VariableKeys| => NodeId(ns, VariableKeys[i]))
  }

  /** The five monitored items are pairwise different. */
  lemma ItemsToCreateDistinct(ns: U16)
    ensures forall i, j :: 0 <= i < j < |ItemsToCreate(ns)| ==> ItemsToCreate(ns)[i] != ItemsToCreate(ns)[j]
  {
    var items := ItemsToCreate(ns);
    forall i, j | 0 <= i < j < |items|
      ensures items[i] != items[j]
    {
      assert items[i].identifier[1] == DigitChar(i + 1);
      assert items[j].identifier[1] == DigitChar(j + 1);
    }
  }

  /** The arguments of `create_subscription` before the callback, in the client library's
      order. */
  datatype SubscriptionParams = SubscriptionParams(
    publishingIntervalMs: nat,
    lifetimeCount: nat,
    maxKeepAliveCount: nat,
    maxNotificationsPerPublish: nat,
    priority: nat,
    publishingEnabled: bool)

  const SubscriptionParameters: SubscriptionParams := SubscriptionParams(1000, 10, 30, 0, 0, true)

  // ---- The run sequence ----

  const DefaultUrl: string := "opc.tcp://127.0.0.1:4855"

  /** The namespace `run` subscribes in. */
  const RunNamespace: U16 := 2

  /** What the client does to the server, in order. */
  datatype Action =
    | Connect(url: string)
    | SpawnEventLoop
    | WaitForConnection
    | CreateSubscription(params: SubscriptionParams)
    | CreateMonitoredItems(subscriptionId: nat, timestamps: TimestampsToReturn, items: seq<NodeId>)
    | Disconnect
    | JoinEventLoop

  /** `run` either returns `Ok(())` or panics in one of its `unwrap`s. */
  datatype Outcome = Returned | Panicked

  /** The server's and the client library's answers, decided outside the model. */
  datatype ServerAnswers = ServerAnswers(
    connects: bool,
    subscription: Result<nat, string>,
    monitoredItems: Result<(), string>,
    eventLoopEndsCleanly: bool)

  datatype Trace = Trace(actions: seq<Action>, outcome: Outcome)

  /** `subscribe_to_variables`: create the subscription, then its monitored items; the
      first failure ends the call with that error. */
  function SubscribeToVariables(ns: U16, server: ServerAnswers): (r: (seq<Action>, Result<(), string>))
    ensures r.1.Ok? <==> server.subscription.Ok? && server.monitoredItems.Ok?
    ensures |r.0| >= 1 && r.0[0] == CreateSubscription(SubscriptionParameters)
    ensures server.subscription.Err? ==> r.0 == [CreateSubscription(SubscriptionParameters)]
    ensures server.subscription.Ok? ==>
      r.0 == [CreateSubscription(SubscriptionParameters),
              CreateMonitoredItems(server.subscription.value, Both, ItemsToCreate(ns))]
  {
    var create := [CreateSubscription(SubscriptionParameters)];
    match server.subscription
    case Err(e) => (create, Err(e))
    case Ok(id) =>
      var actions := create + [CreateMonitoredItems(id, Both, ItemsToCreate(ns))];
      match server.monitoredItems
      case Err(e) => (actions, Err(e))
      case Ok(_) => (actions, Ok(()))
  }

  /** How many times `a` occurs in `actions`. */
  function Count(actions: seq<Action>, a: Action): nat
  {
    if actions == [] then 0
    else (if actions[0] == a then 1 else 0) + Count(actions[1..], a)
  }

  /** `run`: connect (panicking on failure), start the event loop, subscribe in namespace 2;
      on a subscription error, report it and disconnect; then wait for the event loop and
      return `Ok(())`. */
  function Run(server: ServerAnswers): (t: Trace)
    ensures t.outcome == Returned <==> server.connects && server.eventLoopEndsCleanly
    ensures !server.connects ==> t.actions == [Connect(DefaultUrl)]
    ensures Disconnect in t.actions <==>
      server.connects && (server.subscription.Err? || server.monitoredItems.Err?)
    ensures forall a :: a in t.actions && a.CreateMonitoredItems? ==>
      server.connects && server.subscription.Ok?
      && a == CreateMonitoredItems(server.subscription.value, Both, ItemsToCreate(2))
    ensures server.connects && server.subscription.Ok? ==>
      CreateMonitoredItems(server.subscription.value, Both, ItemsToCreate(2)) in t.actions
    ensures server.connects ==> t.actions[|t.actions| - 1] == JoinEventLoop
  {
    if !server.connects then Trace([Connect(DefaultUrl)], Panicked)
    else Trace(ConnectedActions(server), if server.eventLoopEndsCleanly then Returned else Panicked)
  }

  lemma {:induction false} CountAppend(xs: seq<Action>, ys: seq<Action>, a: Action)
    ensures Count(xs + ys, a) == Count(xs, a) + Count(ys, a)
  {
    if xs == [] {
      assert xs + ys == ys;
    } else {
      assert (xs + ys)[1..] == xs[1..] + ys;
      CountAppend(xs[1..], ys, a);
    }
  }

  lemma {:induction false} CountAbsent(xs: seq<Action>, a: Action)
    requires a !in xs
    ensures Count(xs, a) == 0
  {
    if xs != [] {
      CountAbsent(xs[1..], a);
    }
  }

  /** The actions of a run that connected. */
  function ConnectedActions(server: ServerAnswers): seq<Action>
  {
    var (subscribe, result) := SubscribeToVariables(RunNamespace, server);
    [Connect(DefaultUrl), SpawnEventLoop, WaitForConnection] + subscribe
      + (if result.Err? then [Disconnect] else []) + [JoinEventLoop]
  }

  /** A connected run creates exactly one subscription, with publishing interval 1 s,
      lifetime count 10, keep-alive count 30, no notification limit, priority 0 and
      publishing enabled. */
  lemma RunSubscribesOnce(server: ServerAnswers)
    requires server.connects
    ensures Count(Run(server).actions, CreateSubscription(SubscriptionParams(1000, 10, 30, 0, 0, true))) == 1
  {
    var c := CreateSubscription(SubscriptionParameters);
    var (subscribe, result) := SubscribeToVariables(RunNamespace, server);
    var head := [Connect(DefaultUrl), SpawnEventLoop, WaitForConnection];
    var teardown: seq<Action> := if result.Err? then [Disconnect] else [];
    assert Run(server).actions == ConnectedActions(server) == head + subscribe + teardown + [JoinEventLoop];
    CountAbsent(subscribe[1..], c);
    CountAbsent(head, c);
    CountAbsent(teardown + [JoinEventLoop], c);
    CountAppend(head, subscribe, c);
    CountAppend(head + subscribe, teardown + [JoinEventLoop], c);
    assert head + subscribe + teardown + [JoinEventLoop] == (head + subscribe) + (teardown + [JoinEventLoop]);
  }
}
