# homematicip-rest-mqtt bridge, modelled in Dafny

The bridge connects a HomematicIP home-automation session to an MQTT bus. Its work happens in `main.py`:

- **Outbound.** An entity snapshot becomes retained topics `homematicip/<category>/<subtype>/<id>/<key>`, one per attribute. The initial sync publishes every group and every device. Change events publish groups, devices and the home, so the home's `homematicip/home/alarm/<id>/state` topic is refreshed only by a `HOME_CHANGED` event.
- **Inbound.** A message on `cmd/homematicip/...` becomes at most one call on the session: a set-point for a heating group, a door command for a Hörmann gate drive, or the security-zone activation of the home.

The model has five modules:

- `Wrappers`: the `Option` type.
- `Topics`: Python's `str.split('/')` and `'/'.join(...)`, with their round-trip lemmas. The f-strings that build topics compute the join.
- `Mapping`: the entity kinds and `Translate`, which is the if-chain of `process_homematic_payload`. It also holds the alarm-state derivation and the fixed key and namespace tables that the mapper is proved against.
- `Routing`: the topic dispatch of `handle_mqtt_messages` and the three `update_homematic_*` handlers. Each becomes a function returning a `Command`: the one session call made, or `NoCall` with the reason the source logs. The session's lookups `search_group_by_id` and `search_device_by_id` are a `Registry` of two maps. An absent id behaves like an entity of the wrong kind, since `isinstance(None, ...)` is false.
- `Publishing`: the publish loop, the event filter and the sync order.
  - The bus client is the class `Bridge`. Its fields are `connected` (the global `mqtt_client` is set), `noPublish` (`--no-publish`), the subscriptions made and a `trace` holding every publish call, or the dry-run line that replaces it.
  - Its methods append to the trace and are proved against the functions `Emit`, `EmitAll` and `Accepted`.

## Model

| member | source | states |
|---|---|---|
| Topics.Split | main.py:106 | `split('/')` never returns an empty list, and no piece holds the separator |
| Topics.JoinSplit | main.py:106 | joining the pieces of a split topic gives back the topic |
| Topics.SplitJoin | main.py:106 | splitting a topic joined from separator-free segments gives back exactly those segments |
| Topics.JoinInjective | main.py:328 | two topics built from separator-free segments are equal only when their segments are |
| Mapping.AlarmState | main.py:305-311 | the result is one of the three states; `ABSENCE_MODE` exactly when both zones are active, `PRESENCE_MODE` exactly when only the external zone is, `OFF` otherwise (including internal-only) |
| Mapping.Translate | main.py:220-325 | an entity is published exactly when it is a handled kind, always under its own id and with at least one attribute; its namespace, keys and key-to-attribute binding are fixed against the tables by `TranslateAgreesWithTables` |
| Mapping.TranslateAgreesWithTables | main.py:222-322 | every handled kind is published under its fixed namespace (`groups/heating`, `devices/hoermann_drive`, `home/alarm`, …) with exactly the keys of its table, in order (a heating group has `label, set, temperature, humidity, valve, window, mode`), and its data pairs each key with the attribute the attribute table names for it |
| Mapping.TranslateBindsAttributes | main.py:224-321 | the pair at position `i` is key `i` of the key table with attribute `i` of the attribute table: `set` carries the set-point, a thermostat's `temperature` its valve temperature, and so on |
| Mapping.KeyTableSuffixes | main.py:224-321 | no key in any kind's table holds the separator or occurs twice |
| Mapping.NamespaceSegments | main.py:223-316 | no category or subtype holds the separator |
| Mapping.TranslateWellFormed | main.py:222-322 | every translation has a separator-free namespace, at least one key and no key twice |
| Mapping.PrefixAsWritten | main.py:220-223 | the joined prefix equals the f-string `"homematicip/" + category + "/" + subtype + "/" + id` |
| Mapping.TopicExtendsPrefix | main.py:328 | a full topic is the prefix, `/` and the key |
| Mapping.TopicSegments | main.py:328 | a published topic splits into exactly its five segments |
| Mapping.TopicsIdentify | main.py:327-328 | two published topics are equal only for the same namespace, id and key |
| Mapping.NamespaceDeterminesKeys | main.py:222-322 | two entities published under the same category and subtype carry the same ordered keys |
| Mapping.HomeTranslation | main.py:303-314 | the home is published at `homematicip/home/alarm/<id>` with the single key `state`, carrying the derived alarm state |
| Routing.DecodeDoorCommand | main.py:148-158 | a decoded command's literal is the payload; no payload other than the four literals decodes |
| Routing.AlarmZones | main.py:175-184 | `ABSENCE_MODE` gives both zones on, `PRESENCE_MODE` gives external only, and no payload turns the internal zone on alone |
| Routing.UpdateGroup | main.py:123-139 | a set-point call is made exactly when the id names a heating group and the payload parses; it carries that id and value; otherwise the call is dropped as not writable or unparsable |
| Routing.UpdateDevice | main.py:142-169 | a door call is made exactly when the id names a gate drive and the payload is a door literal; it carries that id and command; otherwise it is dropped as not writable or invalid |
| Routing.UpdateHome | main.py:172-194 | a zone call is made exactly when the subtype is `alarm`, with the zones the payload encodes; any other subtype is dropped |
| Routing.Route | main.py:106-120 | a topic of fewer than five segments makes no call; each call comes from the matching segment-2 category, with segment 4 as target id and a target of the right kind |
| Routing.HandleMessages | main.py:98-120 | the messages are handled in order, one routing result each |
| Routing.DoorLiteralRoundTrip | main.py:148-155 | each door command's literal decodes to it, and only that literal does |
| Routing.DoorLiteralsAreExact | main.py:148-158 | `CLOSE`, `open` and `closed` are rejected |
| Routing.AlarmZonesOfState | main.py:175-184 | sending back a published alarm state asks for the zones it stands for; internal-only comes back as both off |
| Routing.AlarmStateOfZones | main.py:305-311 | deriving the state of an encoded payload returns each of the three states unchanged, and `OFF` for any other payload |
| Routing.RouteSegments | main.py:106-118 | a topic of at least five segments is dispatched on segments 2, 3 and 4 alone; a shorter one makes no call |
| Routing.HomeIgnoresId | main.py:115-116 | home commands that differ only in the id segment make the same call |
| Routing.GroupsAndDevicesIgnoreSubtype | main.py:111-114 | group and device commands that differ only in the subtype segment make the same call |
| Routing.CommandPatternsAreLiterals | main.py:82-84 | the three subscription patterns split into exactly the segments of `cmd/homematicip/groups/heating/+/set`, `cmd/homematicip/devices/hoermann_drive/+/state` and `cmd/homematicip/home/alarm/+/state`, and a topic is the join of its split, so they are those strings |
| Routing.CommandTopicsMirrorPublishedTopics | main.py:82-84 | each subscribed command topic is `cmd/` followed by the published topic of the writable attribute |
| Routing.SetPointCommand | main.py:123-133 | on the set-point topic, a heating group gets exactly one set-point when the payload parses, and no call otherwise |
| Routing.DoorCommandRoundTrip | main.py:147-159 | a door literal on a gate drive's command topic becomes exactly that door command |
| Routing.AlarmCommandRoundTrip | main.py:175-186 | a published alarm state sent to the home's command topic asks for the zones it stands for, whatever the id |
| Publishing.Bridge.constructor | main.py:34 | at start-up there is no client, no subscription and no call on the bus |
| Publishing.Bridge.Connect | main.py:57 | once connected, the client is set |
| Publishing.Bridge.ProcessPayload | main.py:213-336 | the trace grows by `Emit` of the entity and by nothing else: no call without a client or for an unhandled kind, otherwise the publish loop over its translation |
| Publishing.Bridge.PublishAll | main.py:327-336 | the trace grows by one effect per pair of the dictionary, in order: a qos-0 retained publish on `<prefix>/<key>`, or the dry-run line |
| Publishing.Bridge.SyncEntities | main.py:87-92 | the trace grows by each entity's effects, in list order |
| Publishing.Bridge.SetupClient | main.py:80-92 | the three command patterns are subscribed, then every group is published, then every device |
| Publishing.Bridge.OnEvent | main.py:203-210 | a change event publishes its entity; any other event adds nothing |
| Publishing.Bridge.OnEvents | main.py:201-210 | the trace grows by the effects of the change events' entities, in event order |
| Publishing.Run | main.py:57-66 | after connecting, the full sync of groups and devices precedes everything events publish |
| Publishing.Republish | main.py:220-331 | publishing the same snapshot twice makes the same calls twice |
| Publishing.EmitAllAppend | main.py:87-92 | the effects of two entity lists in turn are those of the first followed by those of the second |
| Publishing.AcceptedAppend | main.py:202-210 | the event filter distributes over concatenation, so it keeps event order |
| Publishing.AcceptedMembers | main.py:202-210 | an entity is forwarded exactly when some change event carries it, and no more entities are forwarded than events arrive |
| Publishing.DuplicateEventsRepublish | main.py:202-210 | two identical change events are both published, not coalesced |
| Publishing.PublishesPerKey | main.py:327-331 | with a client and publishing on, a handled entity makes one qos-0 retained publish per table key, in order, on `<prefix>/<key>`, carrying the entity attribute bound to that key |
| Publishing.DryRunPerKey | main.py:327-336 | with a client and `--no-publish`, a handled entity writes one dry-run line per table key, in order, naming `<prefix>/<key>` and the entity attribute bound to that key, and makes no publish |
| Publishing.SilentCases | main.py:216-336 | an unhandled kind or an absent client makes no call; dry-run makes no publish and writes one log line per key instead, whose text `DryRunPerKey` fixes |
| Publishing.DistinctTopics | main.py:327-328 | the topics one entity publishes are pairwise different |
| Publishing.SyncCovers | main.py:87-92 | every key of every handled entity in a synced list is published on its topic with the entity attribute bound to that key |

## Left out

- Start-up glue is not modelled: argument parsing, logging configuration and the random client id (main.py:17-32). They only configure the process.
- The MQTT transport is not modelled: connecting, the `while True` keep-alive loop and `MqttError` handling. `Bridge.Connect` stands for the client being set, and `subscribe` is recorded as appending a pattern.
- Concurrency is not modelled. Each accepted event starts a task, and so does the message handler (main.py:95, 210). The model runs these one after the other, so it does not capture how publishes of concurrent tasks may interleave. Each event's `data` is the session's own entity object, and the task reads its attributes when it runs, not when the event arrives (main.py:204, 210). The model's `Event` carries a value snapshot taken at arrival, which is an assumption: in the source, two events for one entity may both publish its later state. `DuplicateEventsRepublish` is about repeated events with equal snapshots.
- UTF-8 decoding of an inbound payload is not modelled: `Message.payload` is already a string, and a decode failure would be swallowed like any other error.
- `float(value)` is the parameter `parseFloat: string -> Option<real>`. Floating point is not modelled, and `None` stands for the `ValueError` that the handler swallows.
- The homematicip library is a foreign call: session set-up, state loading, the `*_async` commands and `result.success`. A command is the `Command` value the router produces. The success flag only decides whether a log line is written, and `update_homematic_home` never sets its `error`, so the model has no result type.
- The websocket error handler (main.py:197-198) only logs and is not modelled.
- Logging is not modelled, except the dry-run "Would publish" line, which is the `WouldPublish` effect.
- Publishing.Bridge.ProcessPayload: an exception from one publish is logged and the loop goes on (main.py:330-334). The trace records every publish call made, so a failed publish looks the same as one that succeeded.
- Mapping.Entity: `HeatingThermostat` stands for both thermostat classes, and `WindowSensor` for the four contact classes, since each group shares one branch. The class hierarchy of the library is not modelled. `isinstance` sends an instance of a subclass down its ancestor's branch, so the model maps such an object to the constructor of its first handled ancestor in branch order. Only an object outside all twelve branches is `Unhandled`.
- Attribute values are abstract (`Value`), so their serialisation on the bus is not modelled.
- The close literal is `CLOSED` (main.py:148); `CLOSE` is rejected like any other payload (`DoorLiteralsAreExact`).
- Routing.Route: as written, segment 3 is not consulted for groups and devices, and segment 4 is not consulted for the home. The model keeps both and proves them (`GroupsAndDevicesIgnoreSubtype`, `HomeIgnoresId`).
