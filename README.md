# ktools client core in Dafny

This project models the client side of ktools, a set of command-line tools
that talk to a Kafka REST proxy and a Confluent schema registry over HTTP.
The repository holds two revisions of the client library: `proxy/` is the
older one and `kproxy/` the current one. The model covers the logic of both:

- **Producers.** `KafkaProtobufProducer` builds a topic → schema-id map from
  the registry listing and frames payloads in the schema-registry wire format
  (`[0][id, 4 bytes big-endian][0] ++ payload`). It drives a
  ReadSchema → GetClusterId → WaitForData ⇄ Send → SendConfirmed/SendFailed
  machine over a persistent queue. `KafkaProducer` is a WaitForData ⇄ Send
  machine over a FIFO queue.
- **Consumers.** There is one `KafkaConsumer` state machine per revision. Each
  drives a `KafkaProxyV2` session through instance creation, subscription,
  polling, offset commits and instance deletion.
- **Schema-registry workflows.** The listing, create and delete reply
  handling. The create and register request bodies. Creating a schema with
  references resolved by id. Deleting a schema by id.
- **Pattern topic deletion.** Mark the topics whose name matches a pattern,
  then delete them one at a time, each deletion triggered by the previous
  one's confirmation.
- **REST proxy v3 calls.** The `data`-array classification, the cluster id,
  topic, config, group, lag and consumer listings, the 404 rule, and topic
  creation and deletion. The produce-record body and its reply.
- **HTTP headers.** The content-type and Accept composition of both HTTP
  clients.
- **Schema-registry CLI helpers.** Fixed-width table rows, a schema's row of
  cells, and the comma-separated reference-id argument.

How it is modelled:

- **State machines.** Every Qt state machine is a state datatype with a pure
  `Transition` function. A class holds the fields the C++ object mutates. Its
  `Handle(signal)` method changes the state and runs the entry action of the
  state entered. It returns the calls and signals that action makes; a
  signal is fed back by the caller, as Qt's event loop does.
- **HTTP.** A REST call is a `Request` value (URL, Content-Type, Accept) and
  its answer a `Reply` value: status, the body parsed as JSON or `None`, the
  body as text, and the network-error flag. Reply handlers are methods from a
  `Reply` to the signals they emit.
- **JSON.** JSON is an abstract datatype. The accessors follow Qt's
  conversions: a missing key or a value of the wrong kind reads as the empty
  string, zero, false, the empty array or the empty object.
- **Integers.** Qt's `qint32` is the subtype `int32`.
- **Parameters for foreign code.** Regular-expression matching is a parameter
  `matches(pattern, name)`. Base64 decoding is a parameter `decode`. The
  persistent queue is an interface class. Its group is taken to be the front
  of the queue, with the group size a parameter `limit`.

Module by source file:

| module | source |
|---|---|
| Json, Text, Registry | shared data: JSON values, Qt string conversions, the registry's `Schema`/`Reference` |
| WireFraming, SchemaIds, LocalSchema, ProtobufProducer | kproxy/kafka_protobuf_producer.cpp |
| KafkaProducer | kproxy/kafka_producer.cpp |
| ProxyKafkaConsumer, KProxyKafkaConsumer | proxy/ and kproxy/kafka_consumer.cpp |
| ProxyKafkaProxyV2, KProxyKafkaProxyV2, Subscription | proxy/ and kproxy/kafka_proxy_v2.cpp |
| KProxySchemaRegistry, ProxySchemaRegistry | kproxy/ and proxy/schema_registry.cpp |
| SchemaCreate | kproxy/schema_create.cpp |
| SchemaDelete | proxy/schema_delete.cpp and proxy/schema_utils.cpp |
| TopicsDelete | kproxy/topics_delete.cpp |
| RestV3, KProxyKafkaProxyV3, ProxyKafkaProxyV3 | kproxy/ and proxy/kafka_proxy_v3.cpp |
| KProxyHttpClient, ProxyHttpClient | kproxy/ and proxy/http_client.cpp |
| Kreg | src/kreg.cpp |
| QtArg | `QString::arg` as src/kreg.cpp and both http_client.cpp files chain it |

Where the headers and the .cpp files disagree, the model follows the .cpp:

- kproxy/kafka_proxy_v3.h declares a four-argument `createTopic`. The .cpp
  defines three arguments and sends no partition count.
- kproxy/kafka_consumer.h takes a single topic. The .cpp takes a list.

proxy/schema_utils.cpp is proxy/schema_delete.cpp under other names, and it
is fed by the `registeredSchemas` listing signal. `SchemaDelete.Deleter`
models both.

## Model

| member | source | states |
|---|---|---|
| Json.MapItems | kproxy/kafka_proxy_v3.cpp:54-60 | each list handler's loop yields one converted element per array item, in order, and nothing else |
| Text.Trim | src/kreg.cpp:51 | the result is the text with its leading and trailing white space cut off: a slice of the text with only white space before and after it, itself starting and ending with no white space; white space is every `QChar::isSpace` character, U+00A0 and the other Unicode spaces included |
| Text.TrimSpacePrefix | src/kreg.cpp:51 | white space in front of a text does not change its trimmed form |
| Text.TrimSpaceSuffix | src/kreg.cpp:51 | white space after a text does not change its trimmed form |
| Text.ParseInt | src/kreg.cpp:51-52 | `toInt(&ok)` succeeds exactly when the trimmed text is digits, optionally after `+` or `-`, whose signed value fits in 32 bits, and it then gives that value |
| Text.SpaceAroundIgnored | src/kreg.cpp:51-52 | any text converts with `toInt` as it does with white space added before and after it |
| Text.NoBreakSpaceTrimmed | src/kreg.cpp:51-52 | any text after a no-break space (U+00A0) converts as the text alone |
| Text.ParseIntToString | src/kreg.cpp:51-52 | every 32-bit integer printed with `QString::arg` converts back to itself with `toInt` |
| Text.SplitJoin | src/kreg.cpp:50 | splitting on a separator undoes joining with it when no part contains the separator |
| Registry.ReferencesFromJson | kproxy/schema_registry.cpp:42-50 | one Reference per element of `references`, in order |
| Registry.SchemaReferencesCopied | kproxy/schema_registry.cpp:40-51 | when `references` is an array, the schema has one reference per entry carrying that entry's subject and version |
| Registry.SchemaWithoutReferenceArray | kproxy/schema_registry.cpp:40 | without a `references` array the schema has no references |
| Registry.FindById | kproxy/schema_create.cpp:25-32 | `find` returns none iff no entry has the id; otherwise it returns the first entry with that id |
| WireFraming.AddSchemaRegistryId | kproxy/kafka_protobuf_producer.cpp:224-237 | id -1 leaves the payload unchanged; any other id prefixes 6 bytes, with magic bytes 0 at positions 0 and 5 and the payload from position 6 |
| WireFraming.HeaderEncodesId | kproxy/kafka_protobuf_producer.cpp:228-233 | header bytes 1..4 read big-endian give the id modulo 2^32, which is how `quint8` casts of the shifts truncate |
| WireFraming.FrameRoundTrip | kproxy/kafka_protobuf_producer.cpp:224-237 | decoding a framed payload gives back the id modulo 2^32 and exactly the payload |
| WireFraming.FrameRoundTripRegistryId | kproxy/kafka_protobuf_producer.cpp:224-237 | for a registry id (non-negative) decoding gives back the id itself and the payload |
| WireFraming.DivDiv256 | kproxy/kafka_protobuf_producer.cpp:229-232 | shifting right by 8 more bits is dividing the previous shift by 256 |
| SchemaIds.TopicOf | kproxy/kafka_protobuf_producer.cpp:91-94 | a subject has a topic iff it ends with "-value"; the topic followed by "-value" is the subject |
| SchemaIds.ResolveIsLatest | kproxy/kafka_protobuf_producer.cpp:84-101 | the rebuilt map has exactly the topics of "-value" subjects; each topic's id and version come from its greatest-version entry, the earliest one on ties |
| SchemaIds.StepResolves | kproxy/kafka_protobuf_producer.cpp:89-99 | one loop iteration keeps the map equal to the latest-version resolution of the entries seen so far |
| SchemaIds.StepKeys | kproxy/kafka_protobuf_producer.cpp:95-98 | after an iteration the id map and the version map have the same keys, exactly the topics seen |
| SchemaIds.StepUpdated | kproxy/kafka_protobuf_producer.cpp:95-98 | an entry with a strictly greater (or first) version replaces its topic's id and version |
| SchemaIds.StepUnchanged | kproxy/kafka_protobuf_producer.cpp:91-95 | an entry that is not "-value" or whose version is not strictly greater changes nothing |
| SchemaIds.StepMentions | kproxy/kafka_protobuf_producer.cpp:91-94 | a topic is seen after an entry iff it was seen before or the entry names it |
| SchemaIds.NewEntryWins | kproxy/kafka_protobuf_producer.cpp:95 | an entry with a strictly greater version becomes the latest for its topic |
| SchemaIds.AppendedBeatsAll | kproxy/kafka_protobuf_producer.cpp:95 | an entry appended with a version above every earlier one of its topic is the latest for that topic |
| SchemaIds.EarlierEntryStays | kproxy/kafka_protobuf_producer.cpp:95 | an equal or lower version keeps the earlier entry as the latest (strict `<`) |
| SchemaIds.LatestIsUnique | kproxy/kafka_protobuf_producer.cpp:95-99 | each topic has at most one latest entry |
| LocalSchema.SaveReferences | kproxy/kafka_protobuf_producer.cpp:149-157 | element i is reference i written as the object {name, subject, version} |
| LocalSchema.SaveSchemas | kproxy/kafka_protobuf_producer.cpp:141-159 | element i is schema i written as the object {schemaId, schema, schemaType, subject, version, references} |
| LocalSchema.LoadReference | kproxy/kafka_protobuf_producer.cpp:121-126 | an entry that is not an object reads as empty names and version 0; a 32-bit `version` number is read as it is |
| LocalSchema.LoadReferences | kproxy/kafka_protobuf_producer.cpp:120-129 | reference i is read from entry i, in order |
| LocalSchema.LoadSchema | kproxy/kafka_protobuf_producer.cpp:112-130 | an element that is not an object reads as an all-empty schema; without a `references` array the schema has no references, otherwise one per entry |
| LocalSchema.LoadSchemas | kproxy/kafka_protobuf_producer.cpp:111-131 | schema i is read from element i, in order |
| LocalSchema.LoadLocalSchema | kproxy/kafka_protobuf_producer.cpp:103-133 | an unreadable file or a document that is not an array loads as the empty list; an array loads one schema per element, in order |
| LocalSchema.ReferenceRoundTrip | kproxy/kafka_protobuf_producer.cpp:121-126 | a saved reference loads back as itself |
| LocalSchema.SchemaRoundTrip | kproxy/kafka_protobuf_producer.cpp:112-130 | a saved schema loads back as itself, references included |
| LocalSchema.ReferencesRoundTrip | kproxy/kafka_protobuf_producer.cpp:120-157 | loading saved references gives the same references |
| LocalSchema.LocalSchemaRoundTrip | kproxy/kafka_protobuf_producer.cpp:103-163 | loading what `saveLocalSchema` wrote gives back the same schema list, every field and reference included |
| ProtobufProducer.PersistentQueue.constructor | kproxy/kafka_protobuf_producer.cpp:184-217 | a new queue is empty with nothing handed out |
| ProtobufProducer.PersistentQueue.Append | kproxy/kafka_protobuf_producer.cpp:239-242 | `append` adds the item at the back and changes nothing else |
| ProtobufProducer.PersistentQueue.Next | kproxy/kafka_protobuf_producer.cpp:192 | `next` hands out a group without removing it; the group is taken to be the front of the queue, at most `limit` items (an assumption listed under "## Left out") |
| ProtobufProducer.PersistentQueue.Confirm | kproxy/kafka_protobuf_producer.cpp:215 | `confirm` removes exactly the handed-out prefix |
| ProtobufProducer.Transition | kproxy/kafka_protobuf_producer.cpp:24-33 | Send is entered only from WaitForData on newData; SendConfirmed only from Send on messageSent; SendFailed only from Send on failed; `error` moves nothing |
| ProtobufProducer.Settle | kproxy/kafka_protobuf_producer.cpp:30-33 | SendFailed is never a resting state: a failed send ends in WaitForData |
| ProtobufProducer.SendAwaitsReply | kproxy/kafka_protobuf_producer.cpp:29-30 | the machine stays in Send until messageSent or failed arrives |
| ProtobufProducer.NoSendBeforeReady | kproxy/kafka_protobuf_producer.cpp:24-25 | before the proxy reports `initialized` the machine is still reading the schema or the cluster id, so nothing is sent |
| ProtobufProducer.SchemaIdFor | kproxy/kafka_protobuf_producer.cpp:200-204 | the mapped id of the topic, or -1 when the topic is unmapped |
| ProtobufProducer.FramePayloads | kproxy/kafka_protobuf_producer.cpp:205-207 | one framed payload per group item, in order, each framed with the same id |
| ProtobufProducer.Group | kproxy/kafka_protobuf_producer.cpp:192 | under the assumed front-of-queue policy, the group is a prefix of the queue |
| ProtobufProducer.SendEffects | kproxy/kafka_protobuf_producer.cpp:184-210 | exactly one sendBinary iff the group is non-empty, with the first item's key and topic and the group's framed payloads; otherwise `error` |
| ProtobufProducer.SentPayloadsDecode | kproxy/kafka_protobuf_producer.cpp:199-209 | every sent payload decodes to the first topic's id and the original payload, or is the payload itself when the topic is unmapped |
| ProtobufProducer.WaitEffects | kproxy/kafka_protobuf_producer.cpp:177-182 | WaitForData signals newData iff the queue is non-empty |
| ProtobufProducer.Producer.constructor | kproxy/kafka_protobuf_producer.cpp:13-46 | a new producer has an empty map and queue and has not started |
| ProtobufProducer.Producer.Start | kproxy/kafka_protobuf_producer.cpp:44-64 | starting enters ReadSchema and requests the schemas |
| ProtobufProducer.Producer.UpdateSchemaIds | kproxy/kafka_protobuf_producer.cpp:84-101 | the loop rebuilds the map from scratch as the latest-version resolution of the list |
| ProtobufProducer.Producer.OnSchemaReceived | kproxy/kafka_protobuf_producer.cpp:68-76 | the ids are rebuilt from the listing; the list is saved only when a local schema file is configured; `schemaReady` follows |
| ProtobufProducer.Producer.OnSchemaReadingFailed | kproxy/kafka_protobuf_producer.cpp:166-173 | the ids are rebuilt from the local snapshot only when it is non-empty, otherwise kept; `schemaReady` always follows |
| ProtobufProducer.Producer.Enqueue | kproxy/kafka_protobuf_producer.cpp:239-242 | `send` appends the item to the queue and signals newData |
| ProtobufProducer.Producer.OnWaitForData | kproxy/kafka_protobuf_producer.cpp:177-182 | newData iff the queue is non-empty |
| ProtobufProducer.Producer.OnSend | kproxy/kafka_protobuf_producer.cpp:184-210 | the framing loop yields SendEffects of the queue; the queue is not shortened; the sent group is recorded as in flight |
| ProtobufProducer.Producer.OnSendConfirmed | kproxy/kafka_protobuf_producer.cpp:213-217 | confirming removes exactly the in-flight group from the front and signals newData |
| ProtobufProducer.Producer.Handle | kproxy/kafka_protobuf_producer.cpp:24-42 | each signal moves the machine as Settle says and runs the entry action; the queue changes only on messageSent in Send |
| ProtobufProducer.Producer.Stop | kproxy/kafka_protobuf_producer.cpp:244-246 | `stop` halts the machine |
| KafkaProducer.Transition | kproxy/kafka_producer.cpp:8-10 | Send is entered only from WaitForData on newData; WaitForData is entered only from Send on messageSent or failed |
| KafkaProducer.WaitEffects | kproxy/kafka_producer.cpp:24-28 | newData iff the queue is non-empty |
| KafkaProducer.SendEffects | kproxy/kafka_producer.cpp:31-39 | an empty queue gives `error` and no send; otherwise the front message's key, topic and value are sent |
| KafkaProducer.SendAwaitsReply | kproxy/kafka_producer.cpp:9-10 | the machine stays in Send until messageSent or failed arrives, so no second message is sent before the first is answered |
| KafkaProducer.Producer.constructor | kproxy/kafka_producer.cpp:4-17 | an empty queue, nothing sent or in flight |
| KafkaProducer.Producer.Start | kproxy/kafka_producer.cpp:15-16 | starting enters WaitForData and runs its entry action |
| KafkaProducer.Producer.Enqueue | kproxy/kafka_producer.cpp:41-44 | `send` appends at the back, keeps the earlier entries, and signals newData |
| KafkaProducer.Producer.OnWaitForData | kproxy/kafka_producer.cpp:24-28 | newData iff the queue is non-empty |
| KafkaProducer.Producer.OnSend | kproxy/kafka_producer.cpp:31-39 | an empty queue is left unchanged; otherwise exactly the front is removed and sent |
| KafkaProducer.Producer.Handle | kproxy/kafka_producer.cpp:8-13 | messages are sent in FIFO order (the next one sent is the next one appended); messageSent and failed return to WaitForData without re-enqueueing, so a failed message is dropped; queued data is never lost |
| KafkaProducer.Producer.Stop | kproxy/kafka_producer.cpp:46-48 | `stop` halts the machine and keeps the queue |
| ProxyKafkaConsumer.Transition | proxy/kafka_consumer.cpp:13-34 | stopRequest gives Success and failed gives Error from any working state; Subscribe only after obtainedInstanceId; Commit only from Read; Read only after subscribed, readAgain or offsetCommitted; final states never move |
| ProxyKafkaConsumer.Entry | proxy/kafka_consumer.cpp:21-77 | both final states delete the instance; Commit commits (topic, last offset) |
| ProxyKafkaConsumer.NoReadBeforeSubscribed | proxy/kafka_consumer.cpp:29-30 | without `subscribed` the consumer never reaches Read or Commit |
| ProxyKafkaConsumer.FinalStays | proxy/kafka_consumer.cpp:10-11 | Success and Error are final |
| ProxyKafkaConsumer.CommitAwaitsConfirmation | proxy/kafka_consumer.cpp:34 | Commit returns to Read only on offsetCommitted |
| ProxyKafkaConsumer.Consumer.constructor | proxy/kafka_consumer.cpp:6-8 | group and topic are stored; the machine has not started |
| ProxyKafkaConsumer.Consumer.Start | proxy/kafka_consumer.cpp:58-61 | starting enters Init and requests an instance id for the group |
| ProxyKafkaConsumer.Consumer.Stop | proxy/kafka_consumer.cpp:63-66 | `stop` raises stopRequest |
| ProxyKafkaConsumer.Consumer.OnReceivedOffset | proxy/kafka_consumer.cpp:42-51 | the last offset is overwritten; -1 raises readAgain, any other offset commitOffset |
| ProxyKafkaConsumer.Consumer.Handle | proxy/kafka_consumer.cpp:13-34 | the state moves as Transition says and the entered state's action runs |
| KProxyKafkaConsumer.Transition | kproxy/kafka_consumer.cpp:13-30 | stopRequest gives Success and failed gives Error from any working state; Subscribe only after obtainedInstanceId; Read after subscribed and again after every readingComplete |
| KProxyKafkaConsumer.Entry | kproxy/kafka_consumer.cpp:20-67 | both final states delete the instance; Read polls |
| KProxyKafkaConsumer.Repeat | kproxy/kafka_consumer.cpp:30 | n copies of a value |
| KProxyKafkaConsumer.PollLoop | kproxy/kafka_consumer.cpp:30 | n readingComplete signals in Read issue exactly n polls |
| KProxyKafkaConsumer.CommitsFor | kproxy/kafka_consumer.cpp:37-41 | only offsets other than -1 are committed, each for its own topic |
| KProxyKafkaConsumer.CommitsForAppend | kproxy/kafka_consumer.cpp:37-41 | the commits of consecutive runs of offsets are the commits of each run, one after the other |
| KProxyKafkaConsumer.CommitsForAt | kproxy/kafka_consumer.cpp:37-41 | every offset other than -1 is committed exactly once, between the commits of the offsets before and after it; -1 adds no commit |
| KProxyKafkaConsumer.EventCommitsOfOffsets | kproxy/kafka_consumer.cpp:37-41 | delivering a run of session events commits exactly CommitsFor of the offsets those events report |
| KProxyKafkaConsumer.PollCommits | kproxy/kafka_consumer.cpp:37-41 | one poll reply of a known media type commits every record's offset other than -1, in record order; another media type commits nothing |
| KProxyKafkaConsumer.Consumer.constructor | kproxy/kafka_consumer.cpp:6-8 | the proxy, group and topics are stored |
| KProxyKafkaConsumer.Consumer.Start | kproxy/kafka_consumer.cpp:48-50 | starting enters Init and requests an instance id |
| KProxyKafkaConsumer.Consumer.Stop | kproxy/kafka_consumer.cpp:52-56 | the pending read is aborted before stopRequest is raised |
| KProxyKafkaConsumer.Consumer.OnReceivedOffset | kproxy/kafka_consumer.cpp:37-41 | an offset other than -1 issues exactly one commit of that topic and offset; -1 issues none |
| KProxyKafkaConsumer.Consumer.Handle | kproxy/kafka_consumer.cpp:13-30 | the state moves as Transition says and the entered state's action runs |
| ProxyKafkaProxyV2.InstanceBody | proxy/kafka_proxy_v2.cpp:11-21 | format protobuf, fetch.min.bytes 1, timeout 10000, offset reset earliest, and auto.commit.enable false (the later key wins) |
| ProxyKafkaProxyV2.CommitBody | proxy/kafka_proxy_v2.cpp:121-130 | a single {topic, partition 0, offset} entry |
| ProxyKafkaProxyV2.LastOffset | proxy/kafka_proxy_v2.cpp:97-110 | the last record's offset, or -1 for none |
| ProxyKafkaProxyV2.ReceivedEvents | proxy/kafka_proxy_v2.cpp:101-112 | one `received` per array element, in order |
| ProxyKafkaProxyV2.OneOffsetPerPoll | proxy/kafka_proxy_v2.cpp:115 | exactly one receivedOffset per poll, as the last signal |
| ProxyKafkaProxyV2.Session.constructor | proxy/kafka_proxy_v2.cpp:5-6 | no group and no instance yet |
| ProxyKafkaProxyV2.Session.RequestInstanceId | proxy/kafka_proxy_v2.cpp:9-24 | the group is stored; the body is InstanceBody, posted to consumers/<group> |
| ProxyKafkaProxyV2.Session.OnInstanceReply | proxy/kafka_proxy_v2.cpp:24-38 | a non-object fails "Failed to obtain instanceId"; `instance_id` is stored and reported; otherwise failed with the reply's message |
| ProxyKafkaProxyV2.Session.SubscribeRequest | proxy/kafka_proxy_v2.cpp:58-67 | the topic is posted as a one-element `topics` array to the instance's subscription |
| ProxyKafkaProxyV2.Session.OnSubscribePosted | proxy/kafka_proxy_v2.cpp:67-74 | a non-2xx reply fails "failed to subscribe" and sends nothing more; 2xx fails nothing and reads the subscription back with a GET on the same url |
| ProxyKafkaProxyV2.Session.OnSubscriptionReply | proxy/kafka_proxy_v2.cpp:74-88 | an object reply gives `subscribed` with the returned topic names joined as the loop joins them; a document that is not an object gives `failed("failed to subscribe")` and then `subscribed("")`, as the missing `return` lets it |
| ProxyKafkaProxyV2.Session.GetRecordsRequest | proxy/kafka_proxy_v2.cpp:93-95 | the poll asks for protobuf content |
| ProxyKafkaProxyV2.Session.OnRecordsReply | proxy/kafka_proxy_v2.cpp:93-117 | one `received` per record, then receivedOffset of the last offset, or -1 when there is no array |
| ProxyKafkaProxyV2.Session.CommitRequest | proxy/kafka_proxy_v2.cpp:120-133 | CommitBody posted to the instance's offsets |
| ProxyKafkaProxyV2.Session.OnCommitReply | proxy/kafka_proxy_v2.cpp:133-139 | offsetCommitted iff 2xx; otherwise failed("error <status>") |
| ProxyKafkaProxyV2.Session.DeleteRequest | proxy/kafka_proxy_v2.cpp:41-43 | the delete targets the instance |
| ProxyKafkaProxyV2.Session.OnDeleteReply | proxy/kafka_proxy_v2.cpp:43-55 | always `finished`: "instance <id> deleted" on 2xx, otherwise the error words joined by spaces |
| Subscription.Names | proxy/kafka_proxy_v2.cpp:83-86 | the topic names of the returned array, in order |
| Subscription.SubscriptionIsJoin | proxy/kafka_proxy_v2.cpp:80-86 | with non-empty names the subscription text is the names joined with ", " |
| Subscription.JoinStartsWithFirst | kproxy/kafka_proxy_v2.cpp:93-96 | the joined text starts with the first name |
| KProxyKafkaProxyV2.InstanceBody | kproxy/kafka_proxy_v2.cpp:19-29 | as the older body, with `format` set to the configured media type |
| KProxyKafkaProxyV2.TopicArray | kproxy/kafka_proxy_v2.cpp:69-72 | one string per requested topic, in order |
| KProxyKafkaProxyV2.TopicArrayNames | kproxy/kafka_proxy_v2.cpp:69-96 | reading the subscribe body's names gives back the requested topics |
| KProxyKafkaProxyV2.CommitBody | kproxy/kafka_proxy_v2.cpp:173-182 | a single {topic, partition 0, offset} entry |
| KProxyKafkaProxyV2.RecordEvents | kproxy/kafka_proxy_v2.cpp:128-143 | protobuf media gives receivedJson, binary media receivedBinary, each followed by receivedOffset(topic, offset); any other media skips the record entirely |
| KProxyKafkaProxyV2.RecordOffsets | kproxy/kafka_proxy_v2.cpp:139-142 | each record's (topic, offset), in order |
| KProxyKafkaProxyV2.OffsetsAppend | kproxy/kafka_proxy_v2.cpp:128-143 | the offsets of two event runs are the offsets of each, in order |
| KProxyKafkaProxyV2.PollOffsets | kproxy/kafka_proxy_v2.cpp:128-143 | with a known media type a poll reports every record's offset, in order; with another it reports none |
| KProxyKafkaProxyV2.Session.constructor | kproxy/kafka_proxy_v2.cpp:8-12 | the media type is stored; no group, instance or pending read |
| KProxyKafkaProxyV2.Session.RequestInstanceId | kproxy/kafka_proxy_v2.cpp:15-31 | the group is stored; InstanceBody is posted to consumers/<group> |
| KProxyKafkaProxyV2.Session.OnInstanceReply | kproxy/kafka_proxy_v2.cpp:31-45 | `instance_id` is stored and reported; anything else fails |
| KProxyKafkaProxyV2.Session.SubscribeRequest | kproxy/kafka_proxy_v2.cpp:66-77 | the body lists every requested topic, in order |
| KProxyKafkaProxyV2.Session.OnSubscribePosted | kproxy/kafka_proxy_v2.cpp:77-84 | a non-2xx reply fails "failed to subscribe" and sends nothing more; 2xx fails nothing and reads the subscription back with a GET on the same url |
| KProxyKafkaProxyV2.Session.OnSubscriptionReply | kproxy/kafka_proxy_v2.cpp:84-98 | an object reply gives `subscribed` with the returned names joined as the loop joins them; a document that is not an object gives `failed("failed to subscribe")` and then `subscribed("")` |
| KProxyKafkaProxyV2.Session.StopReading | kproxy/kafka_proxy_v2.cpp:102-107 | a pending read is aborted and cleared; with none nothing happens |
| KProxyKafkaProxyV2.Session.GetRecords | kproxy/kafka_proxy_v2.cpp:110-112 | a read is pending, with the configured media type |
| KProxyKafkaProxyV2.Session.OnRecordsReply | kproxy/kafka_proxy_v2.cpp:112-147 | an aborted read clears the pending read and emits nothing; a non-array fails "Read error. " plus the message; an array gives the per-record events then readingComplete once |
| KProxyKafkaProxyV2.Session.CommitRequest | kproxy/kafka_proxy_v2.cpp:172-185 | CommitBody posted to the instance's offsets |
| KProxyKafkaProxyV2.Session.OnCommitReply | kproxy/kafka_proxy_v2.cpp:185-191 | offsetCommitted iff 2xx; otherwise failed("error <status>") |
| KProxyKafkaProxyV2.Session.DeleteRequest | kproxy/kafka_proxy_v2.cpp:48-51 | the delete targets the instance |
| KProxyKafkaProxyV2.Session.OnDeleteReply | kproxy/kafka_proxy_v2.cpp:51-63 | always `finished`, whether or not the delete succeeded |
| KProxySchemaRegistry.OnSchemasReply | kproxy/schema_registry.cpp:14-58 | non-2xx fails "error: <status>"; a non-array fails with the rendered reply; otherwise one Schema per element, in order |
| KProxySchemaRegistry.ReferenceEntries | kproxy/schema_registry.cpp:127-134 | one entry per referenced schema, in order |
| KProxySchemaRegistry.CreateSchemaJson | kproxy/schema_registry.cpp:116-141 | `schema` and `schemaType` always; `references` iff the reference list is non-empty |
| KProxySchemaRegistry.CreateSchemaJsonReferences | kproxy/schema_registry.cpp:127-134 | the registry reads each entry back as name = subject = the schema's subject with its version |
| KProxySchemaRegistry.OnCreateReply | kproxy/schema_registry.cpp:71-91 | unreadable JSON fails; schemaCreated(id) iff the reply has `id`; anything else fails with the rendered reply |
| KProxySchemaRegistry.OnDeleteReply | kproxy/schema_registry.cpp:99-111 | the delete fails iff the reply is an object with `error_code` |
| ProxySchemaRegistry.OnSchemasReply | proxy/schema_registry.cpp:14-59 | failures give only ready(false, …); an array gives registeredSchemas, one Schema per element in order, then ready(true) |
| ProxySchemaRegistry.RegisterProtobufRequest | proxy/schema_registry.cpp:122-142 | schemaType PROTOBUF with the file data; `references` iff a reference subject is given, then one entry with name = subject = it and the given version |
| ProxySchemaRegistry.RegisterReferenceReadBack | proxy/schema_registry.cpp:132-140 | the registry reads the reference back as the given subject and version |
| ProxySchemaRegistry.OnRegisterReply | proxy/schema_registry.cpp:72-97 | `id` reports success "Registered schema_id N" even after a network error; `error_code` without `id` reports failure with the rendered reply; with neither, success reflects only the network error |
| ProxySchemaRegistry.OnDeleteReply | proxy/schema_registry.cpp:105-117 | the delete fails iff the reply is an object with `error_code` |
| SchemaCreate.Creator.constructor | kproxy/schema_create.cpp:11-22 | nothing stored yet |
| SchemaCreate.Creator.Create | kproxy/schema_create.cpp:11-22 | no references: create at once with none and no listing; otherwise store the request and fetch the listing |
| SchemaCreate.Creator.OnSchemaList | kproxy/schema_create.cpp:35-47 | create iff every id is found, with the found schemas in request order each carrying its id; otherwise "Missing schemaId <id>" names the first missing id and nothing is created |
| SchemaDelete.Deleter.constructor | proxy/schema_delete.cpp:4-7 | no target yet |
| SchemaDelete.Deleter.DeleteSchemaId | proxy/schema_delete.cpp:9-12 | the id is recorded and the listing requested; nothing is deleted |
| SchemaDelete.Deleter.OnSchemaToDeleteList | proxy/schema_delete.cpp:15-24 | exactly one delete, of the first entry with the id (its subject and version), or "Could not find schemaId <id>"; the requested id is kept |
| SchemaDelete.Deleter.OnSchemaDeleted | proxy/schema_delete.cpp:27-29 | `deleted` carries the requested id with the registry's subject and version |
| TopicsDelete.Matching | kproxy/topics_delete.cpp:22-29 | no more topics are marked than are listed |
| TopicsDelete.MatchingOne | kproxy/topics_delete.cpp:25-27 | a single listed topic is marked exactly when the pattern matches its name |
| TopicsDelete.MatchingLast | kproxy/topics_delete.cpp:24-28 | the last listed topic adds its own mark, if any, after those of the topics before it |
| TopicsDelete.MatchingAppend | kproxy/topics_delete.cpp:24-28 | marking two runs of topics marks those of the first and then those of the second, so marks keep list order |
| TopicsDelete.MatchingIff | kproxy/topics_delete.cpp:22-29 | a topic is marked iff it is listed and the pattern matches its name |
| TopicsDelete.Step | kproxy/topics_delete.cpp:44-51 | onDeleted removes exactly the front mark and requests its deletion, or reports `deleted` when none is left |
| TopicsDelete.DeleteRequests | kproxy/topics_delete.cpp:50 | one delete request per topic, in order |
| TopicsDelete.DrainDeletesInOrder | kproxy/topics_delete.cpp:39-51 | executeDelete and one onDeleted per confirmation delete the marked topics in mark order, one request each, then report `deleted` |
| TopicsDelete.Deleter.constructor | kproxy/topics_delete.cpp:5-8 | no pattern and no marks |
| TopicsDelete.Deleter.PatternDelete | kproxy/topics_delete.cpp:15-19 | earlier marks are cleared, the pattern stored, the topics listed |
| TopicsDelete.Deleter.OnTopicList | kproxy/topics_delete.cpp:22-36 | the matching topics are marked in list order; no mark gives `deleted` at once, otherwise `confirm`; nothing is deleted yet |
| TopicsDelete.Deleter.OnDeleted | kproxy/topics_delete.cpp:44-51 | one Step of the marked queue |
| TopicsDelete.Deleter.ExecuteDelete | kproxy/topics_delete.cpp:39-41 | the same as onDeleted |
| RestV3.DataArray | kproxy/kafka_proxy_v3.cpp:8-24 | non-2xx gives no data and "HTTP error <status>"; no `data` array gives no data and the missing-data message; an empty array gives "Empty data array"; the data is empty iff a message was written |
| RestV3.FailureMessage | kproxy/kafka_proxy_v3.cpp:110-117 | the fixed prefix, followed by the reply's `message` when present |
| RestV3.CreateTopicBodyReadBack | kproxy/kafka_proxy_v3.cpp:93-103 | the body carries the topic and replication factor, and asks for compaction iff `isCompact` (cleanup.policy "compact", else "delete") |
| RestV3.RecordBodyReadBack | kproxy/kafka_proxy_v3.cpp:145-155 | a STRING key iff the key is non-empty; the value's data is the document's object |
| RestV3.SendReply | kproxy/kafka_proxy_v3.cpp:157-172 | delivered iff the reply is an object with `error_code` 200; a non-object fails "Unkown error"; otherwise the reply's message |
| KProxyKafkaProxyV3.Proxy.constructor | kproxy/kafka_proxy_v3.cpp:4-6 | no cluster id yet |
| KProxyKafkaProxyV3.Proxy.OnClusterIdReply | kproxy/kafka_proxy_v3.cpp:27-39 | an empty result fails with the classifier's message and keeps the id; otherwise the first element's cluster_id is stored and announced |
| KProxyKafkaProxyV3.Proxy.OnTopicsReply | kproxy/kafka_proxy_v3.cpp:42-63 | an empty result fails; otherwise one topic per element, in order |
| KProxyKafkaProxyV3.Proxy.OnTopicConfigReply | kproxy/kafka_proxy_v3.cpp:65-90 | an empty result fails; otherwise one config per element, in order |
| KProxyKafkaProxyV3.Proxy.OnGroupsReply | kproxy/kafka_proxy_v3.cpp:176-196 | testing the message fails exactly the empty results, so an empty group list is a failure; otherwise one group per element |
| KProxyKafkaProxyV3.Proxy.OnGroupLagReply | kproxy/kafka_proxy_v3.cpp:199-227 | 404 gives "group X not found" before any other check; then as the other lists |
| KProxyKafkaProxyV3.Proxy.OnLagSummaryReply | kproxy/kafka_proxy_v3.cpp:229-252 | 404 first; a non-object fails "Could not read lag summary"; otherwise the summary's fields |
| KProxyKafkaProxyV3.Proxy.OnGroupConsumersReply | kproxy/kafka_proxy_v3.cpp:255-281 | 404 first; then as the other lists |
| KProxyKafkaProxyV3.Proxy.OnCreateTopicReply | kproxy/kafka_proxy_v3.cpp:106-119 | topicCreated iff 2xx; otherwise the "Failed to create the topic: " message |
| KProxyKafkaProxyV3.Proxy.OnDeleteTopicReply | kproxy/kafka_proxy_v3.cpp:122-139 | topicDeleted iff 2xx; otherwise the "Failed to delete the topic: " message |
| KProxyKafkaProxyV3.Proxy.OnSendMessageReply | kproxy/kafka_proxy_v3.cpp:157-172 | messageSent iff SendReply delivers; otherwise failed with its message |
| ProxyKafkaProxyV3.Proxy.constructor | proxy/kafka_proxy_v3.cpp:4-6 | no cluster id yet |
| ProxyKafkaProxyV3.Proxy.OnClusterIdReply | proxy/kafka_proxy_v3.cpp:27-41 | ready(false, msg) then initialized(false), or the first cluster_id stored with ready(true, id) then initialized(true) |
| ProxyKafkaProxyV3.Proxy.OnTopicsReply | proxy/kafka_proxy_v3.cpp:44-66 | success emits the topics before ready(true, ""); failure only ready(false, msg) |
| ProxyKafkaProxyV3.Proxy.OnTopicConfigReply | proxy/kafka_proxy_v3.cpp:68-95 | failure emits ready(false, msg) and initialized(false); success the configs then ready(true) |
| ProxyKafkaProxyV3.Proxy.OnCreateTopicReply | proxy/kafka_proxy_v3.cpp:111-124 | ready(true) iff 2xx; otherwise the prefix plus the reply's message |
| ProxyKafkaProxyV3.Proxy.OnDeleteTopicReply | proxy/kafka_proxy_v3.cpp:129-143 | ready(true) iff 2xx; otherwise the prefix plus the reply's message |
| ProxyKafkaProxyV3.Proxy.OnSendReply | proxy/kafka_proxy_v3.cpp:162-177 | ready(true) iff error_code is 200; otherwise ready(false, message) |
| KProxyHttpClient.BaseUrl | kproxy/http_client.cpp:21-23 | the intended URL: the server, "/", then the path |
| KProxyHttpClient.BaseUrlAsWrittenAgrees | kproxy/http_client.cpp:22 | the two chained `arg` calls give the intended URL whenever the server address contains no '%' |
| KProxyHttpClient.BaseUrlServerMarker | kproxy/http_client.cpp:22 | a server address holding "%2" gets the path spliced in at that place too, so the URL differs from the intended one |
| KProxyHttpClient.ContentTypeV2 | kproxy/http_client.cpp:37-43 | "application/vnd.kafka.v2+json" without a type, else "application/vnd.kafka.<t>.v2+json" |
| KProxyHttpClient.ContentTypeV2RoundTrip | kproxy/http_client.cpp:37-43 | the media type can be read back from the content type |
| KProxyHttpClient.RequestV2 | kproxy/http_client.cpp:34-50 | the content type names the media type; Accept is set, equal to it, iff the type is protobuf |
| KProxyHttpClient.RequestV3 | kproxy/http_client.cpp:26-31 | Content-Type and Accept are both application/json |
| ProxyHttpClient.BaseUrl | proxy/http_client.cpp:18-20 | the intended URL: the server, "/", then the path |
| ProxyHttpClient.BaseUrlAsWrittenAgrees | proxy/http_client.cpp:19 | the two chained `arg` calls give the intended URL whenever the server address contains no '%' |
| ProxyHttpClient.BaseUrlServerMarker | proxy/http_client.cpp:19 | a server address holding "%2" gets the path spliced in at that place too, so the URL differs from the intended one |
| ProxyHttpClient.RequestV2 | proxy/http_client.cpp:33-44 | protobuf content sets Content-Type and Accept to the protobuf v2 type; otherwise only Content-Type, the JSON v2 type |
| ProxyHttpClient.RequestV3 | proxy/http_client.cpp:23-30 | Content-Type and Accept are both application/json |
| Kreg.Spaces | src/kreg.cpp:12 | n space characters |
| Kreg.Arg | src/kreg.cpp:12 | `arg(s, w)` is as long as the longer of s and \|w\|: it pads and never cuts |
| Kreg.ArgAlignment | src/kreg.cpp:12 | a negative or zero width keeps s at the start with spaces after it; a positive width puts the spaces first and s at the end |
| Kreg.Cells | src/kreg.cpp:10-13 | one cell per column; for a width w >= 0 (as every caller passes), cell i is max(\|row[i]\|, w) long, starts with row[i] and is spaces after it |
| Kreg.FormatRowStep | src/kreg.cpp:10-13 | adding a column appends that column's padded cell to the row built so far |
| Kreg.RowLength | src/kreg.cpp:10-13 | the row is as long as the sum over cells of max(cell length, column width) |
| Kreg.CellPosition | src/kreg.cpp:10-13 | each cell starts where the columns before it end, so the cells appear in order, uncut and without separator |
| Kreg.PrintTableRow | src/kreg.cpp:8-15 | the loop builds the padded row, of the length RowLength gives |
| Kreg.RefEntries | src/kreg.cpp:25-27 | one intended "(subject S, version V)" entry per reference, in order |
| Kreg.RefEntryReadBack | src/kreg.cpp:26 | the intended entry shows the subject verbatim, and its version text converts back to the version |
| Kreg.RefEntryAsWrittenAgrees | src/kreg.cpp:26 | the two chained `arg` calls give the intended entry whenever the subject contains no '%' |
| Kreg.RefEntrySubjectMarker | src/kreg.cpp:26 | a subject ending in "%1" takes the version in the marker's place and leaves a literal "%2", so the entry differs from the intended one |
| Kreg.SchemaRowReadBack | src/kreg.cpp:17-33 | three cells, or four when there are references; the id and version cells convert back to the schema's numbers |
| Kreg.ToStringList | src/kreg.cpp:17-33 | the loop builds id, subject, version, then the joined references only when there are any |
| Kreg.KeepInts | src/kreg.cpp:50-56 | never more ids than tokens |
| Kreg.KeepIntsDrop | src/kreg.cpp:52-55 | a token that does not convert adds no id |
| Kreg.KeepIntsAppend | src/kreg.cpp:50-56 | the ids kept from two runs of tokens are those of the first run followed by those of the second |
| Kreg.ParseReferenceIds | src/kreg.cpp:48-57 | the loop keeps, in order, exactly the comma-separated tokens that convert to integers; an empty argument gives none |
| Kreg.IdStrings | src/kreg.cpp:48-57 | each id in decimal, in order |
| Kreg.NoCommaInNumber | src/kreg.cpp:50 | a decimal number contains no comma |
| Kreg.KeepIntsAllConvert | src/kreg.cpp:50-56 | when every token converts, the kept ids are exactly the converted tokens, in order |
| Kreg.KeepIntsOfNumbers | src/kreg.cpp:50-56 | decimal ids are all kept, unchanged |
| Kreg.JoinNonEmpty | src/kreg.cpp:49 | joining non-empty tokens gives a non-empty argument |
| QtArg.PlainPrefix | kproxy/http_client.cpp:22 | text without '%' holds no marker and is copied unchanged |
| QtArg.MarkerPrefix | kproxy/http_client.cpp:22 | a one-digit marker counts for the lowest number and is replaced exactly when it is the lowest |
| QtArg.OneMarker | src/kreg.cpp:21 | with a single marker, `arg` puts the value, whatever it holds, in the marker's place |
| QtArg.FirstOfTwo | src/kreg.cpp:26 | on a "%1 … %2" template the first call fills %1 and keeps %2, whatever the value |
| QtArg.TwoArgs | src/kreg.cpp:26 | two chained calls on a "%1 … %2" template amount to concatenation when the first value contains no '%' |
| QtArg.FirstValueMarker | kproxy/kafka_proxy_v2.cpp:49 | on a "%1 … %2" template, a first value ending in %1 has that %1 filled by the second call, which leaves %2 in place; the result is not plain substitution |
| QtArg.SameTwice | kproxy/http_client.cpp:22 | a marker that occurs twice takes the value at both places |
| Kreg.ReferenceIdsRoundTrip | src/kreg.cpp:48-57 | ids written as a comma-separated argument are parsed back unchanged |

## Left out

- HTTP transport and authentication. `QRestAccessManager`, `QNetworkRequest` and `onAuthenticationRequired` are replaced by `Request` and `Reply` values; sending and waiting are not modelled.
- JSON parsing and rendering. A reply carries an already parsed document, or `None` when it does not parse. Messages that embed rendered JSON carry the document itself (`Report.WithJson`).
- Fractional JSON numbers. `Json.Num` holds an integer, so a value such as 2.5, which `toInt` reads as 0, cannot occur in the model.
- Base64 decoding of binary records. It is the `decode` parameter.
- Regular-expression matching in the topic deletion. It is the `matches` parameter.
- The persistent queue's storage. Only the interface used here (`append`, `size`, `next`, `confirm`) is modelled. PQueue's source, and with it its grouping policy, is not part of this model.
- ProtobufProducer.PersistentQueue.Next: the group is assumed to be the front of the queue, at most `limit` entries long. A group of same-topic entries spread through the queue, which `confirm` would then remove out of order, is not modelled. Under this assumption a front run that mixes topics is sent to the first item's topic.
- ProtobufProducer.Group: states the same assumed front-of-queue policy, not PQueue's own.
- File and OS access: reading and writing the local schema file (a file that cannot be opened loads as `None`), `randomId` (/dev/random and the clock), `QSettings` wiring, the stdin reader and the signal handlers.
- The command-line mains in src/ (argument parsing, printing, quitting). Of src/kreg.cpp only the row formatting, `toStringList` and the reference-id parsing are modelled. The `printTableRow` copies in src/kgroups.cpp and src/ktopics.cpp are the same function.
- `KafkaProxyV2::getOffset` (both revisions). It only logs the reply.
- Kreg.RefEntries: gives the intended entries. The source's chained `arg` calls give the same text when the subject contains no '%' (Kreg.RefEntryAsWrittenAgrees), and other text otherwise (see "## Findings").
- KProxyHttpClient.BaseUrl: gives the intended URL. The source's chained `arg` calls give the same URL when the server address contains no '%' (see "## Findings").
- ProxyHttpClient.BaseUrl: as for the newer revision.
- KProxyKafkaProxyV2.Session.InstancePath: built by concatenation. The source chains two `arg` calls, which give the same text when the group name contains no '%' (QtArg.TwoArgs), and other text otherwise (see "## Findings").
- ProxyKafkaProxyV2.Session.InstancePath: as for the newer revision.
- KProxyKafkaProxyV3.Proxy.ClusterPath: built by concatenation. The chained `arg` calls on the topic paths give the same text when the cluster id contains no '%' (QtArg.TwoArgs), and other text otherwise (see "## Findings").
- ProxyKafkaProxyV3.Proxy.ClusterPath: as for the newer revision.
- KProxySchemaRegistry.DeleteRequest: the "subjects/%1/versions/%2" path is built by concatenation, which the chained `arg` calls match when the subject contains no '%' (QtArg.TwoArgs), and not otherwise (see "## Findings").
- ProxySchemaRegistry.DeleteRequest: as for the newer revision.
- QtArg.Substitute: `%L` markers take the plain value. Qt formats an integer with the locale's digit grouping there; no template here uses `%L`. Only ASCII digits are marker digits.
- Logging (`qDebug`, `qWarning`, the verbose flag).
- Qt's event loop and state-machine engine. Signals are returned as values that the caller feeds back in order. A handler's queued signals are not interleaved with other events.
- Undefined behaviour is excluded by preconditions rather than modelled:
  - a subscription reply that is not JSON, where the handler asks the missing document for its object (proxy/kafka_proxy_v2.cpp:76-80, kproxy/kafka_proxy_v2.cpp:86-90);
  - a readable poll reply that is not JSON, where the handler asks the missing document `isObject` (kproxy/kafka_proxy_v2.cpp:118-120);
  - a delete reply that is not JSON, where the handler dereferences the missing document (proxy/schema_registry.cpp:107);
  - a 2xx listing reply that is not JSON, where the handler renders the missing document (kproxy/schema_registry.cpp:22-24, proxy/schema_registry.cpp:22-24).
- KProxySchemaRegistry.OnSchemasReply: requires a 2xx reply to carry JSON, because of the undefined rendering above.
- ProxySchemaRegistry.OnSchemasReply: requires a 2xx reply to carry JSON, for the same reason.
- ProxySchemaRegistry.OnDeleteReply: requires a JSON reply, because of the undefined dereference above.
- ProxyKafkaProxyV2.Session.OnSubscriptionReply: requires a JSON reply, because of the undefined access above. A JSON array is handled: `failed` and then an empty `subscribed`.
- KProxyKafkaProxyV2.Session.OnSubscriptionReply: requires a JSON reply, for the same reason, and handles an array the same way.
- KProxyKafkaProxyV2.Session.OnRecordsReply: requires a readable reply to carry JSON, because of the undefined `isObject` call. Whether a reply is still readable is the `readable` parameter. An aborted read delivers an unreadable reply.
- ProxyKafkaConsumer.Consumer.constructor: `mLastOffset` starts at -1. In the source it is uninitialised, but it is always written before Commit reads it.
- ProtobufProducer.Producer.constructor: the machine starts when `Start` is called, not inside the constructor. The source's `mSM.start()` takes effect only once the event loop runs.
- ProtobufProducer.Producer.OnSend: the `error` signal on an empty queue or group changes no state (the source wires no transition to it), so it is returned but has no effect.
- KafkaProducer.Producer.constructor: as for the protobuf producer, the machine starts with `Start`.
- The media type constants `kMediaProtobuf` and `kMediaBinary` are defined outside the files modelled here. They are modelled as "protobuf" and "binary", the names the tools accept.

## Findings

| source | as written | input that shows it | evidently intended | confidence | as-written member | corrected member |
|---|---|---|---|---|---|---|
| src/kreg.cpp:26 | two chained `arg` calls on the template "(subject %1, version %2)"; the second call also scans the subject the first put in | subject "a%1", version 3 gives "(subject a3, version %2)" | "(subject a%1, version 3)" | high for the `arg` semantics; not executed | Kreg.RefEntryAsWritten, shown by Kreg.RefEntrySubjectMarker | Kreg.RefEntry, with Kreg.RefEntryReadBack |
| kproxy/http_client.cpp:22 | two chained `arg` calls on the template "%1/%2"; the second call also scans the server address the first put in | server "http://h/%2Fkp", path "p" gives "http://h/pFkp/p" | "http://h/%2Fkp/p" | medium, as percent-encoded server addresses are uncommon; not executed | KProxyHttpClient.BaseUrlAsWritten, shown by KProxyHttpClient.BaseUrlServerMarker | KProxyHttpClient.BaseUrl |
| proxy/http_client.cpp:19 | the same chained `arg` calls in the older revision | server "http://h/%2Fkp", path "p" gives "http://h/pFkp/p" | "http://h/%2Fkp/p" | medium, as above; not executed | ProxyHttpClient.BaseUrlAsWritten, shown by ProxyHttpClient.BaseUrlServerMarker | ProxyHttpClient.BaseUrl |
| kproxy/kafka_proxy_v2.cpp:49 | two chained `arg` calls on "consumers/%1/instances/%2"; the second call also scans the group name the first put in. The same chaining builds the other instance paths (kproxy/kafka_proxy_v2.cpp:67, 111, 184, 196; proxy/kafka_proxy_v2.cpp:42, 62, 94, 132, 144), the topic and consumer-group paths on the cluster id (kproxy/kafka_proxy_v3.cpp:66, 123, 144, 200, 230, 256; proxy/kafka_proxy_v3.cpp:69, 128, 149) and the schema version paths on the subject (kproxy/schema_registry.cpp:98, proxy/schema_registry.cpp:104) | group "g%1", instance "abc" gives "consumers/gabc/instances/%2" | "consumers/g%1/instances/abc" | medium, as such names are uncommon; not executed | QtArg.Substitute applied twice, shown by QtArg.FirstValueMarker | the concatenated paths: KProxyKafkaProxyV2.Session.InstancePath, KProxyKafkaProxyV3.Proxy.ClusterPath, KProxySchemaRegistry.DeleteRequest and their older-revision counterparts, which agree with the chained calls by QtArg.TwoArgs when the first value contains no '%' |
