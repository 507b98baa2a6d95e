/** The rules both revisions of KafkaProxyV3 share: how a v3 reply with a
    "data" array is classified, the messages of a failed create or delete,
    and the create-topic and produce-record bodies.  The two revisions differ
    only in the message for a reply without a data array, which is a
    parameter here. */
module RestV3 {

  import opened Json
  import opened Text

  datatype Topic = Topic(name: string, isInternal: bool, partitionsCount: int32, replicationFactor: int32)
  datatype TopicConfig = TopicConfig(name: string, value: string, isDefault: bool, isReadOnly: bool, isSensitive: bool)

  /** The list elements, read as Qt does: missing fields are empty or zero;
      a listed topic's partition count and replication factor are not read
      and stay zero. */
  function TopicOf(item: Json): Topic
  {
    var o := AsObject(item);
    Topic(StrField(o, "topic_name"), AsBool(Field(o, "is_internal")), 0, 0)
  }

  function ConfigOf(item: Json): TopicConfig
  {
    var o := AsObject(item);
    TopicConfig(StrField(o, "name"), StrField(o, "value"), AsBool(Field(o, "is_default")),
                AsBool(Field(o, "is_read_only")), AsBool(Field(o, "is_sensitive")))
  }

  /** getDataArray: the data array, and the error message it wrote (the
      callers start from the empty string, so "" means "left untouched"). */
  datatype DataResult = DataResult(data: seq<Json>, error: string)

  function DataArray(reply: Reply, missingData: string): (r: DataResult)
    ensures !IsHttpSuccess(reply.status) ==> r == DataResult([], "HTTP error " + IntToString(reply.status))
    ensures IsHttpSuccess(reply.status) && (reply.json.None? || !DocField(reply.json.value, "data").Arr?) ==>
              r == DataResult([], missingData)
    ensures IsHttpSuccess(reply.status) && reply.json.Some? && DocField(reply.json.value, "data").Arr? ==>
              r.data == DocField(reply.json.value, "data").items
    ensures r.data == [] && IsHttpSuccess(reply.status) && reply.json.Some? && DocField(reply.json.value, "data").Arr? ==>
              r.error == "Empty data array"
    // An empty result always carries a message and a non-empty one never
    // does, so "data is empty" and "a message was written" are the same test.
    ensures missingData != "" ==> (r.data == [] <==> r.error != "")
  {
    if !IsHttpSuccess(reply.status) then
      DataResult([], "HTTP error " + IntToString(reply.status))
    else if reply.json.None? || !DocField(reply.json.value, "data").Arr? then
      DataResult([], missingData)
    else
      var result := DocField(reply.json.value, "data").items;
      DataResult(result, if result == [] then "Empty data array" else "")
  }

  /** The message of a failed create or delete: the fixed prefix, then the
      reply's "message" when the body is JSON and has one. */
  function FailureMessage(prefix: string, reply: Reply): (msg: string)
    ensures |msg| >= |prefix| && msg[..|prefix|] == prefix
    ensures reply.json.Some? && "message" in AsObject(reply.json.value) ==>
              msg == prefix + AsString(AsObject(reply.json.value)["message"])
    ensures (reply.json.None? || "message" !in AsObject(reply.json.value)) ==> msg == prefix
  {
    var msg := prefix;
    if reply.json.Some? && "message" in AsObject(reply.json.value) then
      msg + AsString(AsObject(reply.json.value)["message"])
    else msg
  }

  /** The create-topic body: name, replication factor and a single
      "cleanup.policy" config. */
  function CreateTopicBody(topic: string, isCompact: bool, replicationFactor: int32): Json
  {
    Obj(map["topic_name" := Str(topic), "replication_factor" := Num(replicationFactor),
            "configs" := Arr([Obj(map["name" := Str("cleanup.policy"),
                                      "value" := Str(if isCompact then "compact" else "delete")])])])
  }

  /** How the proxy reads a create-topic body: the configs whose
      "cleanup.policy" is "compact". */
  predicate RequestsCompaction(body: Json)
  {
    exists c :: c in AsArray(Field(AsObject(body), "configs"))
                && StrField(AsObject(c), "name") == "cleanup.policy" && StrField(AsObject(c), "value") == "compact"
  }

  lemma CreateTopicBodyReadBack(topic: string, isCompact: bool, replicationFactor: int32)
    ensures var b := CreateTopicBody(topic, isCompact, replicationFactor);
            && StrField(AsObject(b), "topic_name") == topic
            && IntField(AsObject(b), "replication_factor") == replicationFactor
            && |AsArray(Field(AsObject(b), "configs"))| == 1
            && (RequestsCompaction(b) <==> isCompact)
  {
    var b := CreateTopicBody(topic, isCompact, replicationFactor);
    var c := AsArray(Field(AsObject(b), "configs"))[0];
    assert c in AsArray(Field(AsObject(b), "configs"));
  }

  /** The produce-record body: a STRING key only when the key is non-empty,
      and the document's top-level object as the value. */
  function RecordBody(key: string, value: Json): Json
  {
    var payload := if key != "" then map["key" := Obj(map["type" := Str("STRING"), "data" := Str(key)])] else map[];
    Obj(payload["value" := Obj(map["data" := Obj(AsObject(value))])])
  }

  lemma RecordBodyReadBack(key: string, value: Json)
    ensures var b := AsObject(RecordBody(key, value));
            && ("key" in b <==> key != "")
            && ("key" in b ==> StrField(AsObject(b["key"]), "data") == key && StrField(AsObject(b["key"]), "type") == "STRING")
            && Field(AsObject(Field(b, "value")), "data") == Obj(AsObject(value))
            && (value.Obj? ==> Field(AsObject(Field(b, "value")), "data") == value)
  {
  }

  /** The produce reply: delivered exactly when the body is a JSON object
      whose "error_code" is 200; otherwise the reply's "message", or
      "Unkown error" (sic) when the body is not an object at all. */
  datatype SendResult = Sent | SendFailed(message: string)

  function SendReply(reply: Reply): (r: SendResult)
    ensures r.Sent? <==> reply.json.Some? && reply.json.value.Obj? && IntField(reply.json.value.fields, "error_code") == 200
    ensures (reply.json.None? || !reply.json.value.Obj?) ==> r == SendFailed("Unkown error")
    ensures r.SendFailed? && reply.json.Some? && reply.json.value.Obj? ==>
              r.message == StrField(reply.json.value.fields, "message")
  {
    if reply.json.None? || !reply.json.value.Obj? then SendFailed("Unkown error")
    else
      var obj := reply.json.value.fields;
      if IntField(obj, "error_code") == 200 then Sent else SendFailed(StrField(obj, "message"))
  }
}
