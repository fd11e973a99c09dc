# NATS sync bridge: a verified model

This project models the NATS bridge of the `connect`
repository. The bridge subscribes to a sync subject on the local NATS
cluster and on any number of extra NATS servers. It drops sync events
that this LFH node published itself, and forwards every other sync event
to a Kafka topic. The current version then replays the event into the
local core workflow; the legacy version stops after the forward. The
current version also keeps running per-function averages of timing
samples that arrive on the `TIMING` subject.

The model has five modules:

- `NatsCommon` (`nats_common.dfy`) holds the shared types: client handles,
  the registry's event trace, and inbound sync messages after `json.loads`.
  It also holds the effects a sync handler has on Kafka and on the
  workflow, and the Python exceptions a call can raise.
- `NatsRegistry` (`nats_registry.dfy`) holds the module globals
  `nats_client` and `nats_clients` as the class `Registry`. Its methods are
  `get_nats_client`, `subscribe`, `stop_nats_clients` and the abstract
  connect step that stands for `create_nats_client`. A module-level method
  models `start_sync_event_subscribers`, whose body is the same in both
  files. The legacy file's registry (`pyconnect/clients/nats.py:22-23`,
  `:50-60`, `:87-110`) matches the current one line for line. Both files
  use this one model.
- `NatsTiming` (`nats_timing.dfy`) holds the global `timing_metrics` as the
  class `TimingMetrics`, along with the pure update functions and the
  streaming-mean lemmas.
- `NatsConnect` (`nats_connect.dfy`) models `connect/clients/nats.py`: the
  sync handler (suppress, or forward then replay), timing startup,
  `create_nats_subscribers` and `get_client_status`.
- `NatsLegacy` (`nats_legacy.dfy`) models `pyconnect/clients/nats.py`: the
  sync handler that only forwards, and its startup, which has no timing
  subscription.

How the model works:

- **Client identity.** Each connect produces a `Handle(id, servers)`. The
  `id` comes from the registry's counter `nextId`, the way each call to
  `NatsClient()` in Python builds a new object. The ghost field `trace`
  records every `Connect`, `Subscribe(client, subject, callback)` and
  `Close` in the order they happen.
- **Handlers.** A sync handler is a method that touches no state. It
  returns the ordered list of its effects (`Produce(topic, value)`,
  `RunWorkflow(request)`) and also its outcome: a value, or the exception
  it raises. The timing handler instead updates the `TimingMetrics`
  object's map in place and returns only its outcome.
- **Foreign collaborators** are function parameters:
  - `decode_to_dict` is `decode`;
  - `CoreWorkflow.run` plus the lookup of `data_record_location` is `run`;
  - whether `client.close()` raises is `closeOk`;
  - a client's `is_connected`/`is_reconnecting` flags are `flags`.
- **Configuration values** are a `Config` record: `nats_sync_subject`,
  `kafka_sync_topic`, the LFH id, `nats_servers`, `nats_sync_subscribers`
  and `certificate_verify`.

Where the code's behaviour is easy to misread, the model follows the
code:

- **Shutdown stops at the first failing close.** The docstring of
  `stop_nats_clients` (connect/clients/nats.py:157-159) speaks of
  stopping all clients gracefully, but the loop at :161-162 does not catch
  errors: a `close()` that raises ends the loop, so later clients stay
  open. See `CloseStopsAtFirstFailure`.
- **Every `subscribe` appends its client.** It does so even when the client
  is already on the list. The default client therefore appears once for
  its creation and once per subscription on it.
- **Malformed messages raise; they are not dropped quietly.** Invalid JSON
  or a missing `lfh_id` raises before anything is forwarded. A missing
  `data`, `consuming_endpoint_url` or `data_format`, or a failing
  `decode_to_dict`, raises only after the message has already been
  produced to Kafka.
- **A timing message missing `elapsed_time` leaves an entry behind.** If
  it has `function` but no `elapsed_time`, it raises after the unseen
  entry `{total 0, count 0, average 0}` has been inserted, and that entry
  stays. The invariant the model keeps is therefore "every entry is either
  unseen, or its average is its total over its count".

## Model

| member | source | states |
|---|---|---|
| `NatsRegistry.Registry.constructor` | connect/clients/nats.py:24-25 | At module load there is no default client and the client list is empty. |
| `NatsRegistry.Registry.CreateNatsClient` | connect/clients/nats.py:182-206 | The abstract connect step. It returns a new client for the given servers that differs from every client on the list, records one `Connect`, and leaves the default client and the list alone. |
| `NatsRegistry.Registry.GetNatsClient` | connect/clients/nats.py:165-179 | Once a default client exists, the call returns it and changes nothing: no connect, no append. Otherwise it connects exactly once, makes the new client the default and appends it to the list once. |
| `NatsRegistry.Registry.Subscribe` | connect/clients/nats.py:75-85 | Records the subscription of the callback to the subject on the client, then appends the client to the list unconditionally, without deduplication. Nothing else changes. |
| `NatsRegistry.Registry.StopNatsClients` | connect/clients/nats.py:156-162 | Closes list entries in list order, up to and including the first whose close raises, and returns that error; the list itself is unchanged. |
| `NatsRegistry.CloseAllWhenNoFailure` | connect/clients/nats.py:161-162 | When no close raises, shutdown closes every list entry in order, once per occurrence, duplicates included. |
| `NatsRegistry.CloseStopsAtFirstFailure` | connect/clients/nats.py:161-162 | When the close of entry i raises, exactly entries 0..i are closed and none after: closing is not best-effort. |
| `NatsRegistry.RemoteTraceAt` | connect/clients/nats.py:54-56 | The loop over extra servers alternates connect and subscribe. Event 2k connects a new client for server k, and event 2k+1 subscribes that same client, so every server gets its own client, in order. |
| `NatsRegistry.RemoteClientsAreNew` | connect/clients/nats.py:55 | None of the clients connected for extra servers equals a client built before them, such as the default client. |
| `NatsRegistry.SubscribeRemotes` | connect/clients/nats.py:54-56 | For each extra server, in order, a new client is connected and subscribed to the sync subject. The list grows by exactly those clients, and the default client is untouched. |
| `NatsRegistry.StartSyncEventSubscribers` | connect/clients/nats.py:37-56 | The sync subject is subscribed on the default client first, creating that client only if it is absent. One new client per extra server follows, in order. The new list and trace are stated exactly. |
| `NatsConnect.StartTimingSubscriber` | connect/clients/nats.py:59-72 | "TIMING" is subscribed with the timing handler on the default client, which is created only if absent, and that client is appended once more. |
| `NatsConnect.CreateNatsSubscribers` | connect/clients/nats.py:29-34 | The order is: sync on the default client, then one new client per extra server, then "TIMING" on the default client. On a fresh registry the default client ends up on the list exactly three times. |
| `NatsConnect.ClientStatus` | connect/clients/nats.py:217-222 | CONNECTED exactly when connected. CONNECTING exactly when not connected but reconnecting. NOT_CONNECTED exactly when neither. |
| `NatsConnect.GetClientStatus` | connect/clients/nats.py:209-222 | Gets the default client, creating it on first use as `get_nats_client` does, and returns the status of that client's flags. |
| `NatsConnect.NatsSyncEventHandler` | connect/clients/nats.py:88-132 | Only a message whose `lfh_id` equals `connect_lfh_id` is suppressed, and it causes no produce and no workflow run. A foreign message is produced exactly once, first, to `kafka_sync_topic` with the raw body unchanged. At most one workflow run follows, exactly when the later lookups succeed. Its request takes payload, origin URL, LFH id and data format from the message and certificate verification from the settings, with `do_sync` false and no transmit server. Every error path and the exception it raises are stated. |
| `NatsTiming.TimingMetrics.constructor` | connect/clients/nats.py:26 | The timing map starts empty. |
| `NatsTiming.InitEntry` | connect/clients/nats.py:144-145 | An unseen name gets `{0, 0, 0}`, a seen name keeps its entry, and no other key changes. |
| `NatsTiming.Record` | connect/clients/nats.py:144-150 | One sample raises the name's count by one (so it is at least one) and its total by the elapsed time, and sets the average to total over count. Other names keep their entries, and well-formedness is preserved. |
| `NatsTiming.ApplySamplesMean` | connect/clients/nats.py:144-150 | Samples for other names may be interleaved in any way. After any sequence, a name's count grows by its own sample count and its total by the sum of its own elapsed times, with average total/count. A name without samples is unchanged. |
| `NatsTiming.MeanFromEmpty` | connect/clients/nats.py:144-150 | From the empty map, N samples e1..eN for a name give count N, total e1+...+eN and average (e1+...+eN)/N. |
| `NatsTiming.ThreeSamples` | connect/clients/nats.py:144-150 | Samples 0.10, 0.20, 0.30 for "parseMessage" give total 0.60, count 3, average 0.20. |
| `NatsTiming.TimingMetrics.NatsTimingEventHandler` | connect/clients/nats.py:135-153 | Invalid JSON, or a missing "function" key, raises with the map unchanged. A missing "elapsed_time" raises after the unseen entry was inserted. A complete message applies exactly one `Record`. Every path keeps the map well formed. |
| `NatsLegacy.NatsSyncEventHandler` | pyconnect/clients/nats.py:63-84 | A message whose `lfh_id` equals the setting `lfh_id` is suppressed with no produce. A foreign message gives exactly one produce of the raw body to `kafka_sync_topic` and nothing else: no replay. Invalid JSON and a missing `lfh_id` raise. |
| `NatsLegacy.CreateNatsSubscribers` | pyconnect/clients/nats.py:26-47 | Only the sync subscriptions: the default client first, created only if absent, then one new client per extra server, in order. |

## Left out

- The connection itself, from `create_nats_client` (nkeys, TLS context, reconnect settings, event loop), is a foreign library call. It is modelled as a connect step that always succeeds and returns a new handle. A `ConnectionError` raising out of startup or out of `get_nats_client` is not modelled.
- `client.subscribe` is assumed never to raise. In the source, a raising subscribe would skip the append.
- `NatsRegistry.SubscribeRemotes`: `create_nats_client(server)` receives a single server string, which the NATS library wraps into a list. The model passes the one-element list `[server]`.
- The `servers` argument of `subscribe` and every `logger` call only feed logging, and are left out.
- Kafka internals (`get_kafka_producer`, `KafkaCallback`, delivery results) are out of scope. A produce is one `Produce` effect that never raises.
- The model starts from the decoded body and what `json.loads` made of it. Byte decoding (`msg.data.decode()`) and JSON parsing are out of scope. Message fields are modelled as strings; JSON values of other types for `lfh_id`, `data`, `consuming_endpoint_url`, `data_format` or `function` are not modelled.
- `NatsTiming.TimingMetrics.NatsTimingEventHandler`: an `elapsed_time` that is present but neither a number nor a boolean raises `TypeError` in the source at the same point as a missing key. The model does not tell the two apart: it has only a missing `elapsed_time`, which raises `KeyError`. A boolean `elapsed_time` adds as 1 or 0 in the source, which the model covers as `Some(1.0)` or `Some(0.0)`.
- `decode_to_dict` and `CoreWorkflow.run` are foreign. They are the parameters `decode` and `run`, and the payload is an opaque `map<string, string>`.
- Settings loading (`get_settings`, `get_ssl_context`) is out of scope. The values the code reads are a `Config` record.
- The connection flags come from the transport. They are the parameter `flags`, and the model does not track how a client's state changes over time.
- `NatsRegistry.Registry.GetNatsClient`: "created at most once" holds only for calls that run one after another. In the source the `if not nats_client` test and the store are separated by `await create_nats_client(...)` (connect/clients/nats.py:174-177), so two overlapping first calls (for example `get_client_status` during startup) could each connect and append a client.
- Asyncio scheduling and interleaving between handlers are not modelled. Each handler and each startup step is one sequential method.
- Floating-point arithmetic is not modelled. Timing totals and averages are exact `real` values.
