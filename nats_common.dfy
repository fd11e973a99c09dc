/** Types shared by the current bridge (connect/clients/nats.py) and its
    legacy variant (pyconnect/clients/nats.py): connection handles, the
    registry's effect trace, inbound sync messages and the effects a sync
    handler performs on its collaborators (Kafka and the core workflow). */
module NatsCommon {

  datatype Option<+T> = None | Some(value: T)

  /** What a Python call can raise out of a handler or a shutdown; the model
      keeps the exception kind and, for a failed dictionary lookup, the key. */
  datatype Error =
    | JsonDecodeError            // json.loads rejected the message body
    | KeyError(key: string)      // message[key] on a missing key
    | DataDecodeError            // decode_to_dict rejected message["data"]
    | WorkflowError              // CoreWorkflow.run raised, or its result had no record location
    | CloseError(client: Handle) // client.close() raised

  /** The outcome of one Python call: it returns a value or raises. */
  datatype Outcome<+T> = Returned(value: T) | Raised(error: Error)

  /** An opaque, connected NATS client. `id` stands for the identity of the
      Python object (each connect builds a new one); `servers` is the endpoint
      list it was connected to. */
  datatype Handle = Handle(id: nat, servers: seq<string>)

  /** The two connection flags the status query reads off a client. */
  datatype ConnFlags = ConnFlags(isConnected: bool, isReconnecting: bool)

  /** The callbacks the bridge subscribes. */
  datatype Callback = SyncEventHandler | TimingEventHandler

  /** What the registry does to the NATS library, in order. */
  datatype Event =
    | Connect(client: Handle)
    | Subscribe(client: Handle, subject: string, callback: Callback)
    | Close(client: Handle)

  /** The JSON object of a sync message, after json.loads; a field is None
      when its key is missing. */
  datatype SyncFields = SyncFields(
    lfhId: Option<string>,
    data: Option<string>,
    consumingEndpointUrl: Option<string>,
    dataFormat: Option<string>)

  /** An inbound sync message: the decoded body as received, and what
      json.loads made of it (None when the body is not valid JSON). */
  datatype SyncMessage = SyncMessage(raw: string, parsed: Option<SyncFields>)

  /** The business payload that decode_to_dict yields. */
  type Payload = map<string, string>

  /** The keyword arguments of core.CoreWorkflow(...) in the replay step. */
  datatype WorkflowRequest = WorkflowRequest(
    message: Payload,
    originUrl: string,
    certificateVerify: bool,
    lfhId: string,
    dataFormat: string,
    transmitServer: Option<string>,
    doSync: bool)

  /** An effect of a sync handler on its collaborators. */
  datatype SyncEffect =
    | Produce(topic: string, value: string)    // kafka_producer.produce_with_callback(topic, value)
    | RunWorkflow(request: WorkflowRequest)     // CoreWorkflow(**request).run(None)

  /** What a sync handler returns when it does not raise. */
  datatype SyncResult = Suppressed | Forwarded | Replayed(location: string)

  /** The message carries this node's own LFH identifier: it is an echo. */
  predicate IsLocal(localId: string, msg: SyncMessage)
  {
    msg.parsed.Some? && msg.parsed.value.lfhId == Some(localId)
  }

  /** The message names an LFH identifier other than this node's. */
  predicate IsForeign(localId: string, msg: SyncMessage)
  {
    msg.parsed.Some? && msg.parsed.value.lfhId.Some? && msg.parsed.value.lfhId.value != localId
  }
}
