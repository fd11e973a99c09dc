/** pyconnect/clients/nats.py, the legacy variant of the bridge. Its
    registry globals and their operations are the same as the current
    file's (a Registry); its startup has no timing subscription, and its
    sync handler only forwards foreign messages to Kafka, with no replay. */
module NatsLegacy {
  import opened NatsCommon
  import opened NatsRegistry

  /** The configuration the legacy module reads; its local identifier is
      the setting `lfh_id`. */
  datatype Config = Config(
    natsSyncSubject: string,
    kafkaSyncTopic: string,
    lfhId: string,
    natsServers: seq<string>,
    natsSyncSubscribers: seq<string>)

  /** nats_sync_event_handler of the legacy file: a local echo is dropped, a
      foreign message is produced to Kafka exactly once, unmodified, and
      nothing else happens; in particular the workflow is never run. */
  method NatsSyncEventHandler(config: Config, msg: SyncMessage)
    returns (effects: seq<SyncEffect>, outcome: Outcome<SyncResult>)
    ensures outcome == Returned(Suppressed) <==> IsLocal(config.lfhId, msg)
    ensures outcome == Returned(Forwarded) <==> IsForeign(config.lfhId, msg)
    ensures IsForeign(config.lfhId, msg) ==> effects == [Produce(config.kafkaSyncTopic, msg.raw)]
    ensures !IsForeign(config.lfhId, msg) ==> effects == []
    ensures msg.parsed.None? ==> outcome == Raised(JsonDecodeError)
    ensures msg.parsed.Some? && msg.parsed.value.lfhId.None? ==> outcome == Raised(KeyError("lfh_id"))
  {
    effects := [];
    if msg.parsed.None? {
      return effects, Raised(JsonDecodeError);
    }
    var dataObj := msg.parsed.value;
    if dataObj.lfhId.None? {
      return effects, Raised(KeyError("lfh_id"));
    }
    if config.lfhId == dataObj.lfhId.value {
      return effects, Returned(Suppressed);
    }
    effects := effects + [Produce(config.kafkaSyncTopic, msg.raw)];
    outcome := Returned(Forwarded);
  }

  /** create_nats_subscribers of the legacy file: only the sync
      subscriptions, on the default client first and then on one new client
      per extra server, in order. */
  method CreateNatsSubscribers(r: Registry, config: Config)
    requires r.Valid()
    modifies r
    ensures r.Valid() && r.defaultClient.Some?
    ensures var d := r.defaultClient.value;
            var created := if old(r.defaultClient).None? then [d] else [];
            var first := old(r.nextId) + |created|;
            && (old(r.defaultClient).Some? ==> r.defaultClient == old(r.defaultClient))
            && (old(r.defaultClient).None? ==> d == Handle(old(r.nextId), config.natsServers))
            && r.nextId == first + |config.natsSyncSubscribers|
            && r.clients == old(r.clients) + created + [d] + RemoteClients(config.natsSyncSubscribers, first)
            && r.trace == old(r.trace) + (if old(r.defaultClient).None? then [Connect(d)] else [])
                          + [Subscribe(d, config.natsSyncSubject, SyncEventHandler)]
                          + RemoteTrace(config.natsSyncSubscribers, first, config.natsSyncSubject, SyncEventHandler)
  {
    StartSyncEventSubscribers(r, config.natsSyncSubject, config.natsServers,
                              config.natsSyncSubscribers, SyncEventHandler);
  }
}
