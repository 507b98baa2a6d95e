/** KafkaProtobufProducer (kproxy/kafka_protobuf_producer.cpp): a Qt state
    machine that reads the schema listing, initialises the REST proxy, and then
    sends the entries of a persistent outbox queue in groups, each payload
    framed with the schema id of the group's topic.

    The QStateMachine becomes an explicit `state` field and a `Handle` method
    that takes one signal.  A signal the machine emits is not delivered at
    once (Qt posts it to the machine), so `Handle` and the slots return the
    effects they cause, in order: calls on the registry and the proxy, and
    the signals they emit, which the caller feeds back to `Handle`. */
module ProtobufProducer {

  import opened Json
  import opened Registry
  import opened WireFraming
  import opened SchemaIds
  import LocalSchema

  /** One outbox entry: the topic, the key and the binary payload. */
  datatype Item = Item(topic: string, key: string, payload: seq<byte>)

  /** The outbox (PQueue).  Its source is not part of this model; only its
      interface is: `append`, `size`, `next`, which hands out a group, and
      `confirm`, which drops the group handed out last.  The grouping policy
      is PQueue's own and is not visible here: the model takes the group to be
      the front of the queue, at most `limit` entries long. */
  class PersistentQueue {
    var items: seq<Item>
    var handedOut: nat

    ghost predicate Valid()
      reads this
    {
      handedOut <= |items|
    }

    constructor ()
      ensures Valid() && items == [] && handedOut == 0
    {
      items := [];
      handedOut := 0;
    }

    function Size(): nat
      reads this
    {
      |items|
    }

    method Append(item: Item)
      requires Valid()
      modifies this
      ensures Valid()
      ensures items == old(items) + [item] && handedOut == old(handedOut)
    {
      items := items + [item];
    }

    /** Hands out a group, taken here to be the front of the queue, at most
        `limit` entries long; nothing leaves the queue until it is
        confirmed. */
    method Next(limit: nat) returns (group: seq<Item>)
      requires Valid()
      modifies this
      ensures Valid() && items == old(items)
      ensures group == items[..handedOut]
      ensures handedOut == if limit < |items| then limit else |items|
    {
      handedOut := if limit < |items| then limit else |items|;
      group := items[..handedOut];
    }

    /** Drops the group handed out last. */
    method Confirm()
      requires Valid()
      modifies this
      ensures Valid()
      ensures items == old(items)[old(handedOut)..] && handedOut == 0
    {
      items := items[handedOut..];
      handedOut := 0;
    }
  }

  datatype State =
    | NotStarted
    | ReadSchema
    | GetClusterId
    | WaitForData
    | Send
    | SendConfirmed
    | SendFailed
    | Stopped

  /** The signals the machine's transitions listen to: schemaReady and
      newData of the producer, initialized, messageSent and failed of the
      proxy.  The producer's error signal drives no transition. */
  datatype Signal = SchemaReady | Initialized | NewData | MessageSent | Failed | Error

  /** What the producer does to the outside world, in order. */
  datatype Effect =
    | RequestSchemas
    | InitializeProxy
    | SendBinary(key: string, topic: string, payloads: seq<seq<byte>>)
    | SaveLocalSchema(doc: Json)
    | EmitSchemaReady
    | EmitNewData
    | EmitError

  /** The transitions wired in the constructor; None when the current state
      has no transition on the signal, which Qt then ignores. */
  function Transition(s: State, sig: Signal): (t: Option<State>)
    ensures t == Some(Send) <==> s == WaitForData && sig == NewData
    ensures t == Some(SendConfirmed) <==> s == Send && sig == MessageSent
    ensures t == Some(SendFailed) <==> s == Send && sig == Failed
    ensures s in {NotStarted, Stopped} || sig == Error ==> t == None
  {
    match (s, sig)
    case (ReadSchema, SchemaReady) => Some(GetClusterId)
    case (GetClusterId, Initialized) => Some(WaitForData)
    case (WaitForData, NewData) => Some(Send)
    case (Send, MessageSent) => Some(SendConfirmed)
    case (Send, Failed) => Some(SendFailed)
    case (SendConfirmed, NewData) => Some(WaitForData)
    case _ => None
  }

  /** The state the machine rests in after a signal: SendFailed has a
      transition without a signal, so the machine passes through it to
      WaitForData at once. */
  function Settle(s: State, sig: Signal): (r: State)
    ensures s != SendFailed ==> r != SendFailed
    ensures s == Send && sig == Failed ==> r == WaitForData
    ensures Transition(s, sig) == None ==> r == s
  {
    match Transition(s, sig)
    case None => s
    case Some(t) => if t == SendFailed then WaitForData else t
  }

  /** The machine run over a sequence of signals. */
  function Run(s: State, sigs: seq<Signal>): State
    decreases |sigs|
  {
    if |sigs| == 0 then s else Run(Settle(s, sigs[0]), sigs[1..])
  }

  /** Once in Send, the machine stays there until the proxy answers with
      messageSent or failed: at most one group is in flight. */
  lemma {:induction false} SendAwaitsReply(sigs: seq<Signal>)
    requires forall i :: 0 <= i < |sigs| ==> sigs[i] != MessageSent && sigs[i] != Failed
    ensures Run(Send, sigs) == Send
    decreases |sigs|
  {
    if |sigs| > 0 {
      SendAwaitsReply(sigs[1..]);
    }
  }

  /** Until the listing has been read and the proxy initialised, nothing is
      sent: from ReadSchema, Send is reached only after schemaReady and
      initialized have both been seen, in that order. */
  lemma {:induction false} NoSendBeforeReady(s: State, sigs: seq<Signal>)
    requires s == ReadSchema || s == GetClusterId
    requires forall i :: 0 <= i < |sigs| ==> sigs[i] != Initialized
    ensures Run(s, sigs) == ReadSchema || Run(s, sigs) == GetClusterId
    decreases |sigs|
  {
    if |sigs| > 0 {
      NoSendBeforeReady(Settle(s, sigs[0]), sigs[1..]);
    }
  }

  /** The schema id for a topic, or -1 when the topic has none. */
  function SchemaIdFor(ids: map<string, int32>, topic: string): (id: int32)
    ensures topic in ids ==> id == ids[topic]
    ensures topic !in ids ==> id == NoSchemaId
  {
    if topic in ids then ids[topic] else -1
  }

  /** Every payload of a group framed with one schema id, in order. */
  function FramePayloads(schemaId: int32, group: seq<Item>): (r: seq<seq<byte>>)
    ensures |r| == |group|
    ensures forall i :: 0 <= i < |group| ==> r[i] == AddSchemaRegistryId(schemaId, group[i].payload)
  {
    if |group| == 0 then []
    else FramePayloads(schemaId, group[..|group| - 1]) + [AddSchemaRegistryId(schemaId, group[|group| - 1].payload)]
  }

  /** The group `next` hands out for a queue and a group limit, under the
      front-of-queue policy the model assumes. */
  function Group(items: seq<Item>, limit: nat): (g: seq<Item>)
    ensures |g| <= |items| && g == items[..|g|]
  {
    items[..if limit < |items| then limit else |items|]
  }

  /** What onSend does: an error when the queue or the group is empty,
      otherwise one sendBinary with the first item's key and topic and every
      payload of the group framed with that topic's schema id. */
  function SendEffects(items: seq<Item>, limit: nat, ids: map<string, int32>): (r: seq<Effect>)
    ensures |r| == 1
    ensures r[0].SendBinary? <==> |Group(items, limit)| > 0
    ensures r[0].SendBinary? ==>
      var g := Group(items, limit);
      r[0].key == g[0].key && r[0].topic == g[0].topic &&
      r[0].payloads == FramePayloads(SchemaIdFor(ids, g[0].topic), g)
  {
    var g := Group(items, limit);
    if |items| == 0 || |g| == 0 then [EmitError]
    else [SendBinary(g[0].key, g[0].topic, FramePayloads(SchemaIdFor(ids, g[0].topic), g))]
  }

  /** Each payload that goes out can be read back: when the group's topic
      has a schema id, the frame carries that id and the original payload;
      otherwise the payload goes out unframed. */
  lemma SentPayloadsDecode(items: seq<Item>, limit: nat, ids: map<string, int32>, i: nat)
    requires SendEffects(items, limit, ids)[0].SendBinary?
    requires i < |Group(items, limit)|
    ensures var e := SendEffects(items, limit, ids)[0];
            var g := Group(items, limit);
            var id := SchemaIdFor(ids, g[0].topic);
            && i < |e.payloads|
            && (id == NoSchemaId ==> e.payloads[i] == g[i].payload)
            && (id != NoSchemaId ==> DecodeFrame(e.payloads[i]) == Some((id % TwoTo32, g[i].payload)))
  {
    var g := Group(items, limit);
    var id := SchemaIdFor(ids, g[0].topic);
    if id != NoSchemaId {
      FrameRoundTrip(id, g[i].payload);
    }
  }

  /** What entering WaitForData does: re-signal newData while the queue holds
      anything. */
  function WaitEffects(items: seq<Item>): (r: seq<Effect>)
    ensures r == [EmitNewData] <==> |items| > 0
    ensures r == [] <==> |items| == 0
  {
    if |items| > 0 then [EmitNewData] else []
  }

  class Producer {
    var state: State
    var topicSchemaId: map<string, int32>
    const queue: PersistentQueue
    /** Whether a local snapshot file is configured. */
    const hasLocalSchemaFile: bool
    /** The group of the last sendBinary, which a confirm drops. */
    ghost var inFlight: seq<Item>

    ghost predicate Valid()
      reads this, queue
    {
      && queue.Valid()
      && state != SendFailed
      && ((state == Send || state == SendConfirmed) ==>
            queue.handedOut == |inFlight| && queue.items[..queue.handedOut] == inFlight)
    }

    /** The constructor builds the machine and starts it; its initial state
        is entered by `Start`. */
    constructor (localSchemaFile: bool)
      ensures Valid() && fresh(queue)
      ensures state == NotStarted && topicSchemaId == map[] && queue.items == []
      ensures hasLocalSchemaFile == localSchemaFile
    {
      state := NotStarted;
      topicSchemaId := map[];
      queue := new PersistentQueue();
      hasLocalSchemaFile := localSchemaFile;
      inFlight := [];
    }

    /** The machine enters its initial state, ReadSchema, which requests the
        schema listing. */
    method Start() returns (out: seq<Effect>)
      requires Valid() && state == NotStarted
      modifies this`state
      ensures Valid() && state == ReadSchema && out == [RequestSchemas]
    {
      state := ReadSchema;
      out := [RequestSchemas];
    }

    /** updateSchemaIds: the map is rebuilt from an empty one, keeping for
        every "-value" subject the id of its latest version. */
    method UpdateSchemaIds(schemas: seq<Schema>)
      modifies this`topicSchemaId
      ensures topicSchemaId == Resolve(schemas).ids
      ensures ResolvesTo(schemas, Resolution(topicSchemaId, Resolve(schemas).versions))
    {
      var schemaVersion: map<string, int32> := map[];
      topicSchemaId := map[];
      var i := 0;
      while i < |schemas|
        invariant 0 <= i <= |schemas|
        invariant Resolution(topicSchemaId, schemaVersion) == Resolve(schemas[..i])
      {
        var s := schemas[i];
        assert schemas[..i + 1][..i] == schemas[..i];
        match TopicOf(s.subject) {
          case None =>
          case Some(topic) =>
            if topic !in schemaVersion || schemaVersion[topic] < s.version {
              topicSchemaId := topicSchemaId[topic := s.schemaId];
              schemaVersion := schemaVersion[topic := s.version];
            }
        }
        i := i + 1;
      }
      assert schemas[..i] == schemas;
      ResolveIsLatest(schemas);
    }

    /** onSchemaReceived: rebuild the map, save the listing when a local
        snapshot is configured, and signal schemaReady. */
    method OnSchemaReceived(schemas: seq<Schema>) returns (out: seq<Effect>)
      requires Valid()
      modifies this`topicSchemaId
      ensures Valid()
      ensures topicSchemaId == Resolve(schemas).ids
      ensures out == (if hasLocalSchemaFile then [SaveLocalSchema(LocalSchema.SaveLocalSchema(schemas))] else [])
                     + [EmitSchemaReady]
    {
      UpdateSchemaIds(schemas);
      out := [];
      if hasLocalSchemaFile {
        out := [SaveLocalSchema(LocalSchema.SaveLocalSchema(schemas))];
      }
      out := out + [EmitSchemaReady];
    }

    /** onSchemaReadingFailed: fall back on the local snapshot (`file` is its
        parsed content, None when it cannot be opened).  The map is rebuilt
        only from a non-empty snapshot; schemaReady follows in every case. */
    method OnSchemaReadingFailed(file: Option<Json>) returns (out: seq<Effect>)
      requires Valid()
      modifies this`topicSchemaId
      ensures Valid()
      ensures var loaded := LocalSchema.LoadLocalSchema(file);
              topicSchemaId == if |loaded| > 0 then Resolve(loaded).ids else old(topicSchemaId)
      ensures out == [EmitSchemaReady]
    {
      var schemas := LocalSchema.LoadLocalSchema(file);
      if |schemas| > 0 {
        UpdateSchemaIds(schemas);
      }
      out := [EmitSchemaReady];
    }

    /** send: append to the outbox and signal newData. */
    method Enqueue(item: Item) returns (out: seq<Effect>)
      requires Valid()
      modifies queue
      ensures Valid()
      ensures queue.items == old(queue.items) + [item] && out == [EmitNewData]
    {
      queue.Append(item);
      out := [EmitNewData];
    }

    /** onWaitForData */
    method OnWaitForData() returns (out: seq<Effect>)
      requires Valid()
      ensures out == WaitEffects(queue.items)
    {
      out := [];
      if queue.Size() > 0 {
        out := [EmitNewData];
      }
    }

    /** onSend: take the front group and send it as one sendBinary. */
    method OnSend(limit: nat) returns (out: seq<Effect>)
      requires queue.Valid() && state == Send
      modifies queue, this`inFlight
      ensures Valid()
      ensures queue.items == old(queue.items)
      ensures out == SendEffects(old(queue.items), limit, topicSchemaId)
      ensures out[0].SendBinary? ==> inFlight == Group(queue.items, limit)
    {
      if queue.Size() == 0 {
        inFlight := [];
        out := [EmitError];
        return;
      }
      var group := queue.Next(limit);
      inFlight := group;
      if |group| == 0 {
        out := [EmitError];
        return;
      }
      var common := group[0];
      var schemaId: int32 := -1;
      if common.topic in topicSchemaId {
        schemaId := topicSchemaId[common.topic];
      }
      var toSend: seq<seq<byte>> := [];
      var i := 0;
      while i < |group|
        invariant 0 <= i <= |group|
        invariant toSend == FramePayloads(schemaId, group[..i])
      {
        assert group[..i + 1][..i] == group[..i];
        toSend := toSend + [AddSchemaRegistryId(schemaId, group[i].payload)];
        i := i + 1;
      }
      assert group[..i] == group;
      out := [SendBinary(common.key, common.topic, toSend)];
    }

    /** onSendConfirmed: the group that went out leaves the queue, then
        newData moves the machine back to WaitForData. */
    method OnSendConfirmed() returns (out: seq<Effect>)
      requires Valid() && state == SendConfirmed
      modifies queue, this`inFlight
      ensures Valid()
      ensures queue.items == old(queue.items)[|old(inFlight)|..]
      ensures old(queue.items) == old(inFlight) + queue.items
      ensures out == [EmitNewData]
    {
      queue.Confirm();
      inFlight := [];
      out := [EmitNewData];
    }

    /** One signal delivered to the machine, with the entry action of every
        state it enters. */
    method Handle(sig: Signal, limit: nat) returns (out: seq<Effect>)
      requires Valid()
      modifies this`state, this`inFlight, queue
      ensures Valid()
      ensures state == Settle(old(state), sig)
      ensures Transition(old(state), sig) == None ==> out == [] && queue.items == old(queue.items)
      ensures old(state) == ReadSchema && sig == SchemaReady ==> out == [InitializeProxy]
      ensures old(state) == GetClusterId && sig == Initialized ==> out == WaitEffects(queue.items)
      ensures old(state) == WaitForData && sig == NewData ==>
                out == SendEffects(old(queue.items), limit, topicSchemaId) &&
                (out[0].SendBinary? ==> inFlight == Group(old(queue.items), limit))
      ensures old(state) == Send && sig == MessageSent ==>
                old(queue.items) == old(inFlight) + queue.items && out == [EmitNewData]
      ensures old(state) == Send && sig == Failed ==> out == WaitEffects(queue.items)
      ensures old(state) == SendConfirmed && sig == NewData ==> out == WaitEffects(queue.items)
      ensures queue.items != old(queue.items) ==> old(state) == Send && sig == MessageSent
    {
      var t := Transition(state, sig);
      out := [];
      if t.None? {
        return;
      }
      state := t.value;
      match state
      case GetClusterId =>
        out := [InitializeProxy];
      case WaitForData =>
        out := OnWaitForData();
      case Send =>
        out := OnSend(limit);
      case SendConfirmed =>
        out := OnSendConfirmed();
      case SendFailed =>
        // onSendFailed only logs; the transition without a signal follows.
        state := WaitForData;
        out := OnWaitForData();
      case _ =>
        assert false;
    }

    /** stop: the machine stops and no longer reacts to signals. */
    method Stop()
      requires Valid()
      modifies this`state
      ensures Valid() && state == Stopped
    {
      state := Stopped;
    }
  }
}
