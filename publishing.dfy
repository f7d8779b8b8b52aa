/**
 * The outbound side of the bridge: `process_homematic_payload`'s publish
 * loop, the event filter `on_homematic_events` and the initial sync of
 * `setup_mqtt_client`.  The bus client is recorded as a trace of the calls
 * made on it, so that what a run publishes, and in which order, can be stated.
 */
module Publishing {

  import opened Wrappers
  import opened Mapping
  import Routing

  /** One `mqtt_client.publish(topic, value, qos, retain)` call. */
  datatype Publish = Publish(topic: string, value: Value, qos: nat, retain: bool)

  /** What the publish loop does for one key: a publish call, or the dry-run log line. */
  datatype Effect = Published(msg: Publish) | WouldPublish(topic: string, value: Value)

  /** The effect of one `(key, value)` pair of a translation. */
  function EffectOf(t: Translation, attribute: (string, Value), noPublish: bool): Effect
  {
    var fullTopic := Topic(t, attribute.0);
    if noPublish then WouldPublish(fullTopic, attribute.1)
    else Published(Publish(fullTopic, attribute.1, 0, true))
  }

  /**
   * What `process_homematic_payload` does to the bus for one entity, given
   * whether a client is connected and whether `--no-publish` was given.
   */
  function Emit(e: Entity, connected: bool, noPublish: bool): seq<Effect>
  {
    if !connected then []
    else match Translate(e)
      case None => []
      case Some(t) => Effects(t, noPublish)
  }

  /** The effects of the publish loop over a translation's pairs, one per pair, in order. */
  function Effects(t: Translation, noPublish: bool): seq<Effect>
  {
    seq(|t.data|, i requires 0 <= i < |t.data| => EffectOf(t, t.data[i], noPublish))
  }

  /** `Emit` for a list of entities, one after the other. */
  function EmitAll(es: seq<Entity>, connected: bool, noPublish: bool): seq<Effect>
    decreases |es|
  {
    if es == [] then [] else Emit(es[0], connected, noPublish) + EmitAll(es[1..], connected, noPublish)
  }

  /** A change event as the session delivers it. */
  datatype Event = Event(eventType: string, data: Entity)

  /** The event kinds the bridge forwards. */
  const ChangeEventTypes: seq<string> := ["DEVICE_CHANGED", "GROUP_CHANGED", "HOME_CHANGED"]

  predicate IsChangeEvent(eventType: string)
  {
    eventType in ChangeEventTypes
  }

  /** The entities of the forwarded events, in order. */
  function Accepted(events: seq<Event>): seq<Entity>
    decreases |events|
  {
    if events == [] then []
    else (if IsChangeEvent(events[0].eventType) then [events[0].data] else [])
         + Accepted(events[1..])
  }

  /** The number of publish calls among some effects. */
  function PublishCount(effects: seq<Effect>): nat
    decreases |effects|
  {
    if effects == [] then 0
    else (if effects[0].Published? then 1 else 0) + PublishCount(effects[1..])
  }

  /**
   * The bridge's state: whether the global bus client is set, the dry-run
   * flag, the subscriptions made and every call made on the bus so far.
   */
  class Bridge {
    var connected: bool
    const noPublish: bool
    var subscriptions: seq<string>
    var trace: seq<Effect>

    /** At start-up no bus client exists yet (`mqtt_client = None`). */
    constructor (noPublish: bool)
      ensures !connected && this.noPublish == noPublish
      ensures subscriptions == [] && trace == []
    {
      connected := false;
      this.noPublish := noPublish;
      subscriptions := [];
      trace := [];
    }

    /** The bus client is set once the connection is up (`mqtt_client = client`). */
    method Connect()
      modifies this`connected
      ensures connected
    {
      connected := true;
    }

    /** `process_homematic_payload`: one publish (or dry-run line) per key, in key order. */
    method ProcessPayload(e: Entity)
      modifies this`trace
      ensures trace == old(trace) + Emit(e, connected, noPublish)
    {
      if !connected {
        return;
      }
      var translation := Translate(e);
      if translation.None? {
        return;
      }
      PublishAll(translation.value);
    }

    /** The loop `for k, v in data.items()`: one publish (or dry-run line) per pair, in order. */
    method PublishAll(t: Translation)
      modifies this`trace
      ensures trace == old(trace) + Effects(t, noPublish)
    {
      ghost var emitted := Effects(t, noPublish);
      for i := 0 to |t.data|
        invariant trace == old(trace) + emitted[..i]
      {
        var (key, value) := t.data[i];
        var fullTopic := Topic(t, key);
        if !noPublish {
          trace := trace + [Published(Publish(fullTopic, value, 0, true))];
        } else {
          trace := trace + [WouldPublish(fullTopic, value)];
        }
        assert emitted[..i + 1] == emitted[..i] + [emitted[i]];
        Regroup(old(trace), emitted[..i], [emitted[i]]);
      }
      assert emitted[..|t.data|] == emitted;
    }

    /** One of the sync loops: every entity of the list in turn. */
    method SyncEntities(es: seq<Entity>)
      modifies this`trace
      ensures trace == old(trace) + EmitAll(es, connected, noPublish)
    {
      for i := 0 to |es|
        invariant trace == old(trace) + EmitAll(es[..i], connected, noPublish)
      {
        assert es[..i + 1] == es[..i] + [es[i]];
        EmitAllSnoc(es[..i], es[i], connected, noPublish);
        ProcessPayload(es[i]);
        Regroup(old(trace), EmitAll(es[..i], connected, noPublish), Emit(es[i], connected, noPublish));
      }
      assert es[..|es|] == es;
    }

    /**
     * `setup_mqtt_client`: subscribe to the three command patterns, then
     * publish every group and after them every device.
     */
    method SetupClient(groups: seq<Entity>, devices: seq<Entity>)
      modifies this`trace, this`subscriptions
      ensures subscriptions == old(subscriptions) + Routing.CommandPatterns
      ensures trace == old(trace) + EmitAll(groups + devices, connected, noPublish)
    {
      subscriptions := subscriptions + [Routing.CommandPatterns[0]];
      subscriptions := subscriptions + [Routing.CommandPatterns[1]];
      subscriptions := subscriptions + [Routing.CommandPatterns[2]];
      SyncEntities(groups);
      SyncEntities(devices);
      EmitAllAppend(groups, devices, connected, noPublish);
      Regroup(old(trace), EmitAll(groups, connected, noPublish), EmitAll(devices, connected, noPublish));
    }

    /** One pass of the event loop: a change event is processed, any other kind skipped. */
    method OnEvent(event: Event)
      modifies this`trace
      ensures trace == old(trace) + EmitAll(Accepted([event]), connected, noPublish)
    {
      if IsChangeEvent(event.eventType) {
        ProcessPayload(event.data);
        assert EmitAll([event.data], connected, noPublish) == Emit(event.data, connected, noPublish) + [];
      }
    }

    /** `on_homematic_events`: the events in order, each through `OnEvent`. */
    method OnEvents(events: seq<Event>)
      modifies this`trace
      ensures trace == old(trace) + EmitAll(Accepted(events), connected, noPublish)
    {
      for i := 0 to |events|
        invariant trace == old(trace) + EmitAll(Accepted(events[..i]), connected, noPublish)
      {
        ForwardStep(events, i, connected, noPublish);
        OnEvent(events[i]);
        Regroup(old(trace), EmitAll(Accepted(events[..i]), connected, noPublish),
                EmitAll(Accepted([events[i]]), connected, noPublish));
      }
      assert events[..|events|] == events;
    }
  }

  /**
   * A run of the bridge: connect, set up the client with the session's groups
   * and devices, then take a batch of events.  The full sync comes before
   * anything an event publishes.
   */
  method Run(noPublish: bool, groups: seq<Entity>, devices: seq<Entity>, events: seq<Event>)
    returns (bridge: Bridge)
    ensures fresh(bridge) && bridge.connected && bridge.noPublish == noPublish
    ensures bridge.subscriptions == Routing.CommandPatterns
    ensures bridge.trace == EmitAll(groups + devices, true, noPublish)
                            + EmitAll(Accepted(events), true, noPublish)
  {
    bridge := new Bridge(noPublish);
    bridge.Connect();
    bridge.SetupClient(groups, devices);
    ghost var synced := EmitAll(groups + devices, true, noPublish);
    assert bridge.trace == [] + synced;
    assert [] + synced == synced;
    bridge.OnEvents(events);
  }

  /** Publishing the same snapshot twice makes the same calls twice: nothing is remembered. */
  method Republish(bridge: Bridge, e: Entity)
    modifies bridge`trace
    ensures bridge.trace == old(bridge.trace) + Emit(e, bridge.connected, bridge.noPublish)
                            + Emit(e, bridge.connected, bridge.noPublish)
  {
    bridge.ProcessPayload(e);
    bridge.ProcessPayload(e);
  }

  // ---------------------------------------------------------------------
  // Properties of the outbound side

  /** The effects of a list of entities are those of its parts, in order. */
  lemma {:induction false} EmitAllAppend(a: seq<Entity>, b: seq<Entity>, connected: bool,
                                         noPublish: bool)
    ensures EmitAll(a + b, connected, noPublish)
            == EmitAll(a, connected, noPublish) + EmitAll(b, connected, noPublish)
    decreases |a|
  {
    if a == [] {
      assert a + b == b;
    } else {
      assert (a + b)[0] == a[0];
      assert (a + b)[1..] == a[1..] + b;
      EmitAllAppend(a[1..], b, connected, noPublish);
      Regroup(Emit(a[0], connected, noPublish), EmitAll(a[1..], connected, noPublish),
              EmitAll(b, connected, noPublish));
    }
  }

  lemma EmitAllSnoc(es: seq<Entity>, e: Entity, connected: bool, noPublish: bool)
    ensures EmitAll(es + [e], connected, noPublish)
            == EmitAll(es, connected, noPublish) + Emit(e, connected, noPublish)
  {
    EmitAllAppend(es, [e], connected, noPublish);
    assert EmitAll([e], connected, noPublish) == Emit(e, connected, noPublish) + [];
  }

  /** Concatenation regrouped, for appending to a trace. */
  lemma Regroup<T>(a: seq<T>, b: seq<T>, c: seq<T>)
    ensures a + b + c == a + (b + c)
  {
  }

  /** The effects of the first `i + 1` events add those of event `i` to those of the first `i`. */
  lemma ForwardStep(events: seq<Event>, i: nat, connected: bool, noPublish: bool)
    requires i < |events|
    ensures EmitAll(Accepted(events[..i + 1]), connected, noPublish)
            == EmitAll(Accepted(events[..i]), connected, noPublish)
               + EmitAll(Accepted([events[i]]), connected, noPublish)
  {
    assert events[..i + 1] == events[..i] + [events[i]];
    AcceptedAppend(events[..i], [events[i]]);
    EmitAllAppend(Accepted(events[..i]), Accepted([events[i]]), connected, noPublish);
  }

  /** The filter keeps the order of the events: it distributes over concatenation. */
  lemma {:induction false} AcceptedAppend(a: seq<Event>, b: seq<Event>)
    ensures Accepted(a + b) == Accepted(a) + Accepted(b)
    decreases |a|
  {
    if a == [] {
      assert a + b == b;
    } else {
      assert (a + b)[1..] == a[1..] + b;
      AcceptedAppend(a[1..], b);
    }
  }

  /** An entity is forwarded exactly when some change event carries it. */
  lemma {:induction false} AcceptedMembers(events: seq<Event>, x: Entity)
    ensures |Accepted(events)| <= |events|
    ensures x in Accepted(events) <==>
      exists i :: 0 <= i < |events| && IsChangeEvent(events[i].eventType) && events[i].data == x
    decreases |events|
  {
    if events != [] {
      AcceptedMembers(events[1..], x);
      if x in Accepted(events[1..]) {
        var i :| 0 <= i < |events[1..]| && IsChangeEvent(events[1..][i].eventType)
                 && events[1..][i].data == x;
        assert events[i + 1] == events[1..][i];
      }
      forall i | 1 <= i < |events| && IsChangeEvent(events[i].eventType) && events[i].data == x
        ensures x in Accepted(events[1..])
      {
        assert events[1..][i - 1] == events[i];
      }
    }
  }

  /** Duplicate change events are not coalesced: each is published again. */
  lemma DuplicateEventsRepublish(event: Event, connected: bool, noPublish: bool)
    requires IsChangeEvent(event.eventType)
    ensures EmitAll(Accepted([event, event]), connected, noPublish)
            == Emit(event.data, connected, noPublish) + Emit(event.data, connected, noPublish)
  {
    AcceptedAppend([event], [event]);
    assert [event] + [event] == [event, event];
    EmitAllAppend([event.data], [event.data], connected, noPublish);
    assert [event.data] + [event.data] == [event.data, event.data];
  }

  /**
   * With a client and publishing on, a handled entity gets exactly one
   * retained, qos-0 publish per key of the key table, in table order, on
   * topic `<prefix>/<key>`, carrying that key's value.
   */
  lemma PublishesPerKey(e: Entity)
    requires !e.Unhandled?
    ensures var t := Translate(e).value; var out := Emit(e, true, false);
      |out| == |KeyTable(e)| && PublishCount(out) == |KeyTable(e)| &&
      forall i :: 0 <= i < |out| ==>
        out[i] == Published(Publish(Prefix(t) + "/" + KeyTable(e)[i], Attributes(e)[i], 0, true))
  {
    var t := Translate(e).value;
    var out := Emit(e, true, false);
    TranslateAgreesWithTables(e);
    forall i | 0 <= i < |out|
      ensures out[i] == Published(Publish(Prefix(t) + "/" + KeyTable(e)[i], Attributes(e)[i], 0, true))
    {
      TranslateBindsAttributes(e, i);
      TopicExtendsPrefix(t, t.data[i].0);
    }
    AllPublished(out);
  }

  /**
   * With a client and `--no-publish`, a handled entity writes one "Would
   * publish" line per table key, in order, naming `<prefix>/<key>` and the
   * entity attribute bound to that key.
   */
  lemma DryRunPerKey(e: Entity)
    requires !e.Unhandled?
    ensures var t := Translate(e).value; var out := Emit(e, true, true);
      |out| == |KeyTable(e)| &&
      forall i :: 0 <= i < |out| ==>
        out[i] == WouldPublish(Prefix(t) + "/" + KeyTable(e)[i], Attributes(e)[i])
  {
    var t := Translate(e).value;
    var out := Emit(e, true, true);
    TranslateAgreesWithTables(e);
    forall i | 0 <= i < |out|
      ensures out[i] == WouldPublish(Prefix(t) + "/" + KeyTable(e)[i], Attributes(e)[i])
    {
      TranslateBindsAttributes(e, i);
      TopicExtendsPrefix(t, t.data[i].0);
    }
  }

  lemma {:induction false} AllPublished(effects: seq<Effect>)
    requires forall i :: 0 <= i < |effects| ==> effects[i].Published?
    ensures PublishCount(effects) == |effects|
    decreases |effects|
  {
    if effects != [] {
      AllPublished(effects[1..]);
    }
  }

  lemma {:induction false} NonePublished(effects: seq<Effect>)
    requires forall i :: 0 <= i < |effects| ==> !effects[i].Published?
    ensures PublishCount(effects) == 0
    decreases |effects|
  {
    if effects != [] {
      NonePublished(effects[1..]);
    }
  }

  /**
   * No publish call is made for an unhandled kind, without a client, or in
   * dry-run mode; in dry-run mode there is one log line per key instead.
   */
  lemma SilentCases(e: Entity, connected: bool, noPublish: bool)
    ensures e.Unhandled? || !connected ==> Emit(e, connected, noPublish) == []
    ensures noPublish ==> PublishCount(Emit(e, connected, noPublish)) == 0
    ensures connected && noPublish && !e.Unhandled? ==>
      |Emit(e, connected, noPublish)| == |KeyTable(e)| &&
      forall i :: 0 <= i < |KeyTable(e)| ==> Emit(e, connected, noPublish)[i].WouldPublish?
  {
    if noPublish {
      NonePublished(Emit(e, connected, noPublish));
    }
    if !e.Unhandled? {
      TranslateAgreesWithTables(e);
    }
  }

  /** The topics one entity publishes are pairwise different. */
  lemma DistinctTopics(e: Entity, connected: bool, noPublish: bool, i: nat, j: nat)
    requires i < j < |Emit(e, connected, noPublish)|
    ensures TopicOf(Emit(e, connected, noPublish)[i]) != TopicOf(Emit(e, connected, noPublish)[j])
  {
    var t := Translate(e).value;
    TranslateWellFormed(e);
    TopicExtendsPrefix(t, t.data[i].0);
    TopicExtendsPrefix(t, t.data[j].0);
    var p := Prefix(t) + "/";
    assert Topic(t, t.data[i].0)[|p|..] == t.data[i].0;
    assert Topic(t, t.data[j].0)[|p|..] == t.data[j].0;
  }

  function TopicOf(effect: Effect): string
  {
    match effect
    case Published(msg) => msg.topic
    case WouldPublish(topic, _) => topic
  }

  /**
   * Full sync covers everything: with a client and publishing on, every key
   * of every handled entity in the list is published with its value.
   */
  lemma {:induction false} SyncCovers(es: seq<Entity>, k: nat, i: nat)
    requires k < |es| && !es[k].Unhandled? && i < |KeyTable(es[k])|
    ensures Published(Publish(Topic(Translate(es[k]).value, KeyTable(es[k])[i]),
                              Attributes(es[k])[i], 0, true)) in EmitAll(es, true, false)
    decreases |es|
  {
    if k > 0 {
      SyncCovers(es[1..], k - 1, i);
    } else {
      var t := Translate(es[0]).value;
      TranslateBindsAttributes(es[0], i);
      assert Emit(es[0], true, false)[i]
          == Published(Publish(Topic(t, KeyTable(es[0])[i]), Attributes(es[0])[i], 0, true));
    }
  }
}
