/** connect/clients/nats.py: startup of the sync and timing subscriptions,
    the sync event handler that suppresses local echoes and otherwise
    forwards to Kafka and replays into the core workflow, and the status
    query on the default client. The registry globals are a Registry, the
    timing global a NatsTiming.TimingMetrics. */
module NatsConnect {
  import opened NatsCommon
  import opened NatsRegistry

  /** The subject the timing subscriber listens on. */
  const TIMING_SUBJECT := "TIMING"

  /** The configuration the module reads: the sync subject and Kafka topic
      (constants of the config module) and the settings it consults. */
  datatype Config = Config(
    natsSyncSubject: string,
    kafkaSyncTopic: string,
    connectLfhId: string,
    natsServers: seq<string>,
    natsSyncSubscribers: seq<string>,
    certificateVerify: bool)

  /** get_client_status' if-chain: connected wins over reconnecting. */
  function ClientStatus(flags: ConnFlags): (status: string)
    ensures status == "CONNECTED" <==> flags.isConnected
    ensures status == "CONNECTING" <==> !flags.isConnected && flags.isReconnecting
    ensures status == "NOT_CONNECTED" <==> !flags.isConnected && !flags.isReconnecting
  {
    if flags.isConnected then "CONNECTED"
    else if flags.isReconnecting then "CONNECTING"
    else "NOT_CONNECTED"
  }

  /** The replay request for a foreign message: payload, origin URL, LFH id
      and data format come from the message, certificate verification from
      the settings, and the request neither syncs again nor transmits. */
  ghost predicate ReplayRequestFor(request: WorkflowRequest, config: Config, fields: SyncFields,
                                   decode: string -> Option<Payload>)
  {
    && fields.data.Some? && decode(fields.data.value) == Some(request.message)
    && fields.consumingEndpointUrl == Some(request.originUrl)
    && fields.lfhId == Some(request.lfhId)
    && fields.dataFormat == Some(request.dataFormat)
    && request.certificateVerify == config.certificateVerify
    && request.transmitServer == None
    && !request.doSync
  }

  /** The message has everything the replay step looks up. */
  predicate ReplayReady(fields: SyncFields, decode: string -> Option<Payload>)
  {
    && fields.data.Some? && decode(fields.data.value).Some?
    && fields.consumingEndpointUrl.Some?
    && fields.dataFormat.Some?
  }

  /** nats_sync_event_handler. `decode` stands for decode_to_dict and `run`
      for CoreWorkflow.run followed by the "data_record_location" lookup
      (None when either raises). The result lists the calls on Kafka and on
      the workflow, in order. */
  method NatsSyncEventHandler(config: Config, msg: SyncMessage, decode: string -> Option<Payload>,
                              run: WorkflowRequest -> Option<string>)
    returns (effects: seq<SyncEffect>, outcome: Outcome<SyncResult>)
    // a local echo is suppressed, and only a local echo
    ensures outcome == Returned(Suppressed) <==> IsLocal(config.connectLfhId, msg)
    // nothing at all reaches Kafka or the workflow unless the origin is foreign
    ensures effects == [] <==> !IsForeign(config.connectLfhId, msg)
    // a foreign message is produced exactly once, unmodified, before anything else
    ensures IsForeign(config.connectLfhId, msg) ==> effects[0] == Produce(config.kafkaSyncTopic, msg.raw)
    ensures forall i :: 0 < i < |effects| ==> effects[i].RunWorkflow?
    ensures |effects| <= 2
    // the single replay happens exactly when the message holds all it needs, and carries these fields
    ensures |effects| == 2 <==> IsForeign(config.connectLfhId, msg) && ReplayReady(msg.parsed.value, decode)
    ensures |effects| == 2 ==> ReplayRequestFor(effects[1].request, config, msg.parsed.value, decode)
    ensures |effects| == 2 ==> outcome == (match run(effects[1].request)
                                           case Some(location) => Returned(Replayed(location))
                                           case None => Raised(WorkflowError))
    // errors, in the order the lookups happen
    ensures msg.parsed.None? ==> outcome == Raised(JsonDecodeError)
    ensures msg.parsed.Some? && msg.parsed.value.lfhId.None? ==> outcome == Raised(KeyError("lfh_id"))
    ensures IsForeign(config.connectLfhId, msg) && msg.parsed.value.data.None? ==>
              outcome == Raised(KeyError("data"))
    ensures IsForeign(config.connectLfhId, msg) && msg.parsed.value.data.Some? &&
            decode(msg.parsed.value.data.value).None? ==>
              outcome == Raised(DataDecodeError)
    ensures IsForeign(config.connectLfhId, msg) && msg.parsed.value.data.Some? &&
            decode(msg.parsed.value.data.value).Some? && msg.parsed.value.consumingEndpointUrl.None? ==>
              outcome == Raised(KeyError("consuming_endpoint_url"))
    ensures IsForeign(config.connectLfhId, msg) && msg.parsed.value.data.Some? &&
            decode(msg.parsed.value.data.value).Some? && msg.parsed.value.consumingEndpointUrl.Some? &&
            msg.parsed.value.dataFormat.None? ==>
              outcome == Raised(KeyError("data_format"))
  {
    effects := [];
    if msg.parsed.None? {
      return effects, Raised(JsonDecodeError);
    }
    var message := msg.parsed.value;
    if message.lfhId.None? {
      return effects, Raised(KeyError("lfh_id"));
    }
    if config.connectLfhId == message.lfhId.value {
      return effects, Returned(Suppressed);
    }

    // store the message in Kafka
    effects := effects + [Produce(config.kafkaSyncTopic, msg.raw)];

    // process the message into the local store
    if message.data.None? {
      return effects, Raised(KeyError("data"));
    }
    var msgData := decode(message.data.value);
    if msgData.None? {
      return effects, Raised(DataDecodeError);
    }
    if message.consumingEndpointUrl.None? {
      return effects, Raised(KeyError("consuming_endpoint_url"));
    }
    if message.dataFormat.None? {
      return effects, Raised(KeyError("data_format"));
    }
    var request := WorkflowRequest(
      message := msgData.value,
      originUrl := message.consumingEndpointUrl.value,
      certificateVerify := config.certificateVerify,
      lfhId := message.lfhId.value,
      dataFormat := message.dataFormat.value,
      transmitServer := None,
      doSync := false);
    effects := effects + [RunWorkflow(request)];
    var result := run(request);
    if result.None? {
      return effects, Raised(WorkflowError);
    }
    outcome := Returned(Replayed(result.value));
  }

  /** start_timing_subscriber: subscribe the timing handler to "TIMING" on
      the default client, creating it if there is none yet. */
  method StartTimingSubscriber(r: Registry, config: Config)
    requires r.Valid()
    modifies r
    ensures r.Valid() && r.defaultClient.Some?
    ensures var d := r.defaultClient.value;
            && (old(r.defaultClient).Some? ==> d == old(r.defaultClient).value && r.nextId == old(r.nextId))
            && (old(r.defaultClient).None? ==> d == Handle(old(r.nextId), config.natsServers) &&
                                                r.nextId == old(r.nextId) + 1)
            && r.clients == old(r.clients) + (if old(r.defaultClient).None? then [d] else []) + [d]
            && r.trace == old(r.trace) + (if old(r.defaultClient).None? then [Connect(d)] else [])
                          + [Subscribe(d, TIMING_SUBJECT, TimingEventHandler)]
  {
    var client := r.GetNatsClient(config.natsServers);
    r.Subscribe(client, TIMING_SUBJECT, TimingEventHandler);
  }

  /** create_nats_subscribers: the sync subscriptions, then the timing one.
      The default client is connected at most once and is subscribed first
      to the sync subject and last to "TIMING"; in between each extra server
      gets a new client. On a fresh registry the default client is on the
      shutdown list three times: once for its creation and once per
      subscription on it. */
  method CreateNatsSubscribers(r: Registry, config: Config)
    requires r.Valid()
    modifies r
    ensures r.Valid() && r.defaultClient.Some?
    ensures var d := r.defaultClient.value;
            var created := if old(r.defaultClient).None? then [d] else [];
            var first := old(r.nextId) + |created|;
            && (old(r.defaultClient).Some? ==> r.defaultClient == old(r.defaultClient))
            && (old(r.defaultClient).None? ==> d == Handle(old(r.nextId), config.natsServers))
            && r.nextId == first + |config.natsSyncSubscribers|
            && r.clients == old(r.clients) + created + [d]
                            + RemoteClients(config.natsSyncSubscribers, first) + [d]
            && r.trace == old(r.trace) + (if old(r.defaultClient).None? then [Connect(d)] else [])
                          + [Subscribe(d, config.natsSyncSubject, SyncEventHandler)]
                          + RemoteTrace(config.natsSyncSubscribers, first, config.natsSyncSubject, SyncEventHandler)
                          + [Subscribe(d, TIMING_SUBJECT, TimingEventHandler)]
    ensures old(r.clients) == [] ==> multiset(r.clients)[r.defaultClient.value] == 3
  {
    StartSyncEventSubscribers(r, config.natsSyncSubject, config.natsServers,
                              config.natsSyncSubscribers, SyncEventHandler);
    ghost var afterSync := r.clients;
    StartTimingSubscriber(r, config);
    ghost var d := r.defaultClient.value;
    ghost var first := old(r.nextId) + (if old(r.defaultClient).None? then 1 else 0);
    RemoteClientsAreNew(config.natsSyncSubscribers, first, d);
    if old(r.clients) == [] {
      assert old(r.defaultClient).None?;
      assert r.clients == [d, d] + RemoteClients(config.natsSyncSubscribers, first) + [d];
    }
  }

  /** get_client_status: the status of the default client, which this call
      creates if there is none yet. `flags` is the connection state the
      transport reports for a client. */
  method GetClientStatus(r: Registry, config: Config, flags: Handle -> ConnFlags) returns (status: string)
    requires r.Valid()
    modifies r
    ensures r.Valid() && r.defaultClient.Some?
    ensures r.GotDefault(old(r.defaultClient), old(r.clients), old(r.trace), old(r.nextId),
                         config.natsServers, r.defaultClient.value)
    ensures status == ClientStatus(flags(r.defaultClient.value))
  {
    var client := r.GetNatsClient(config.natsServers);
    status := ClientStatus(flags(client));
  }
}
