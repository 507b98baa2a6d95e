/** KafkaProxyV2 of the older revision (proxy/kafka_proxy_v2.cpp): one
    consumer session of the Kafka REST proxy, v2 API.  The session keeps the
    group name and the instance id the proxy hands out; each call builds a
    request, and each reply handler returns the signals it emits, in order. */
module ProxyKafkaProxyV2 {

  import opened Json
  import opened Text
  import opened Subscription
  import ProxyHttpClient

  /** KafkaProxyV2::Message */
  datatype Message = Message(key: string, offset: int32, partition: int32, topic: string, value: map<string, Json>)

  datatype Event =
    | ObtainedInstanceId(instanceId: string)
    | Failed(message: string)
    | Subscribed(topics: string)
    | Received(record: Message)
    | ReceivedOffset(offset: int32)
    | OffsetCommitted
    | Finished(message: string)

  /** The consumer-instance settings posted to create the instance.  The
      object lists "auto.commit.enable" twice, first as the string "false"
      and then as the boolean false; the later one is what the object
      holds. */
  function InstanceBody(): (b: Json)
    ensures b.Obj? && b.fields.Keys == {"format", "fetch.min.bytes", "consumer.request.timeout.ms",
                                        "auto.offset.reset", "auto.commit.enable"}
    ensures b.fields["format"] == Str("protobuf")
    ensures b.fields["fetch.min.bytes"] == Num(1)
    ensures b.fields["consumer.request.timeout.ms"] == Num(10000)
    ensures b.fields["auto.offset.reset"] == Str("earliest")
    ensures b.fields["auto.commit.enable"] == Bool(false)
  {
    Obj(map["format" := Str("protobuf"),
            "fetch.min.bytes" := Num(1),
            "consumer.request.timeout.ms" := Num(10000),
            "auto.offset.reset" := Str("earliest"),
            "auto.commit.enable" := Str("false"),
            "auto.commit.enable" := Bool(false)])
  }

  /** The body of commitOffset: a single entry for partition 0. */
  function CommitBody(topic: string, offset: int32): (b: Json)
    ensures b.Obj? && b.fields.Keys == {"offsets"}
    ensures AsArray(b.fields["offsets"]) == [Obj(map["topic" := Str(topic), "partition" := Num(0), "offset" := Num(offset)])]
  {
    Obj(map["offsets" := Arr([Obj(map["topic" := Str(topic), "partition" := Num(0), "offset" := Num(offset)])])])
  }

  /** One element of the records reply read as a Message. */
  function MessageOf(item: Json): Message
  {
    var o := AsObject(item);
    Message(StrField(o, "key"), IntField(o, "offset"), IntField(o, "partition"), StrField(o, "topic"),
            AsObject(Field(o, "value")))
  }

  /** The offset getRecords reports: that of the last record, or -1 when
      there is none. */
  function LastOffset(items: seq<Json>): (r: int32)
    ensures |items| == 0 ==> r == -1
    ensures |items| > 0 ==> r == MessageOf(items[|items| - 1]).offset
  {
    if |items| == 0 then -1 else MessageOf(items[|items| - 1]).offset
  }

  function ReceivedEvents(items: seq<Json>): (r: seq<Event>)
    ensures |r| == |items|
    ensures forall i :: 0 <= i < |items| ==> r[i] == Received(MessageOf(items[i]))
  {
    if |items| == 0 then [] else ReceivedEvents(items[..|items| - 1]) + [Received(MessageOf(items[|items| - 1]))]
  }

  class Session {
    const server: string
    var groupName: string
    var instanceId: string

    constructor (server: string)
      ensures this.server == server && groupName == "" && instanceId == ""
    {
      this.server := server;
      groupName := "";
      instanceId := "";
    }

    function InstancePath(): string
      reads this
    {
      "consumers/" + groupName + "/instances/" + instanceId
    }

    /** requestInstanceId: remembers the group and posts the settings. */
    method RequestInstanceId(group: string) returns (req: Request, body: Json)
      modifies this`groupName
      ensures groupName == group && instanceId == old(instanceId)
      ensures req == ProxyHttpClient.RequestV2(server, "consumers/" + group, false)
      ensures body == InstanceBody()
    {
      groupName := group;
      req := ProxyHttpClient.RequestV2(server, "consumers/" + group, false);
      body := InstanceBody();
    }

    /** The reply to the instance creation: an object with "instance_id"
        gives the id, which is kept; any other object fails with its
        "message"; anything else fails with a fixed text. */
    method OnInstanceReply(reply: Reply) returns (ev: Event)
      modifies this`instanceId
      ensures var obj := reply.json.Some? && reply.json.value.Obj?;
              && (!obj ==> ev == Failed("Failed to obtain instanceId") && instanceId == old(instanceId))
              && (obj && "instance_id" in reply.json.value.fields ==>
                    instanceId == AsString(reply.json.value.fields["instance_id"]) && ev == ObtainedInstanceId(instanceId))
              && (obj && "instance_id" !in reply.json.value.fields ==>
                    ev == Failed(StrField(reply.json.value.fields, "message")) && instanceId == old(instanceId))
    {
      if reply.json.None? || !reply.json.value.Obj? {
        ev := Failed("Failed to obtain instanceId");
        return;
      }
      var obj := reply.json.value.fields;
      if "instance_id" in obj {
        instanceId := AsString(obj["instance_id"]);
        ev := ObtainedInstanceId(instanceId);
      } else {
        ev := Failed(StrField(obj, "message"));
      }
    }

    /** subscribe: posts the one topic to the instance's subscription. */
    method SubscribeRequest(topic: string) returns (req: Request, body: Json)
      ensures req == ProxyHttpClient.RequestV2(server, InstancePath() + "/subscription", false)
      ensures body == Obj(map["topics" := Arr([Str(topic)])])
    {
      req := ProxyHttpClient.RequestV2(server, InstancePath() + "/subscription", false);
      body := Obj(map["topics" := Arr([Str(topic)])]);
    }

    /** The reply to the subscription post: on success the subscription is
        read back with a GET on the same url, otherwise the session fails. */
    method OnSubscribePosted(reply: Reply) returns (ev: Option<Event>, next: Option<Request>)
      ensures ev.None? <==> IsHttpSuccess(reply.status)
      ensures ev.Some? ==> ev.value == Failed("failed to subscribe") && next.None?
      ensures ev.None? ==> next == Some(ProxyHttpClient.RequestV2(server, InstancePath() + "/subscription", false))
    {
      if !IsHttpSuccess(reply.status) {
        return Some(Failed("failed to subscribe")), None;
      }
      return None, Some(ProxyHttpClient.RequestV2(server, InstancePath() + "/subscription", false));
    }

    /** The subscription read back: the topic names joined into one text.
        A document that is not an object reports the failure and then goes
        on: its object() is empty, so an empty subscription follows. */
    method OnSubscriptionReply(reply: Reply) returns (evs: seq<Event>)
      requires reply.json.Some?
      ensures reply.json.value.Obj? ==>
                evs == [Subscribed(SubscriptionText(AsArray(Field(reply.json.value.fields, "topics"))))]
      ensures !reply.json.value.Obj? ==> evs == [Failed("failed to subscribe"), Subscribed("")]
    {
      evs := [];
      if !reply.json.value.Obj? {
        evs := [Failed("failed to subscribe")];
      }
      var topics := AsArray(DocField(reply.json.value, "topics"));
      var subscription := "";
      var i := 0;
      while i < |topics|
        invariant 0 <= i <= |topics|
        invariant subscription == SubscriptionText(topics[..i])
      {
        assert topics[..i + 1][..i] == topics[..i];
        if subscription != "" {
          subscription := subscription + ", ";
        }
        subscription := subscription + AsString(topics[i]);
        i := i + 1;
      }
      assert topics[..i] == topics;
      evs := evs + [Subscribed(subscription)];
    }

    /** getRecords asks for protobuf records. */
    method GetRecordsRequest() returns (req: Request)
      ensures req == ProxyHttpClient.RequestV2(server, InstancePath() + "/records", true)
    {
      req := ProxyHttpClient.RequestV2(server, InstancePath() + "/records", true);
    }

    /** The records reply: one `received` per element, in order, then one
        `receivedOffset` with the last record's offset, or -1 when the reply
        is empty or not an array. */
    method OnRecordsReply(reply: Reply) returns (events: seq<Event>)
      ensures var items := if reply.json.Some? then AsArray(reply.json.value) else [];
              events == ReceivedEvents(items) + [ReceivedOffset(LastOffset(items))]
    {
      var lastOffset: int32 := -1;
      events := [];
      if reply.json.Some? && reply.json.value.Arr? {
        var items := reply.json.value.items;
        var i := 0;
        while i < |items|
          invariant 0 <= i <= |items|
          invariant events == ReceivedEvents(items[..i])
          invariant lastOffset == LastOffset(items[..i])
        {
          assert items[..i + 1][..i] == items[..i];
          var message := MessageOf(items[i]);
          lastOffset := message.offset;
          events := events + [Received(message)];
          i := i + 1;
        }
        assert items[..i] == items;
      }
      events := events + [ReceivedOffset(lastOffset)];
    }

    /** commitOffset */
    method CommitRequest(topic: string, offset: int32) returns (req: Request, body: Json)
      ensures req == ProxyHttpClient.RequestV2(server, InstancePath() + "/offsets", false)
      ensures body == CommitBody(topic, offset)
    {
      req := ProxyHttpClient.RequestV2(server, InstancePath() + "/offsets", false);
      body := CommitBody(topic, offset);
    }

    method OnCommitReply(reply: Reply) returns (ev: Event)
      ensures IsHttpSuccess(reply.status) <==> ev == OffsetCommitted
      ensures !IsHttpSuccess(reply.status) ==> ev == Failed("error " + IntToString(reply.status))
    {
      if !IsHttpSuccess(reply.status) {
        ev := Failed("error " + IntToString(reply.status));
      } else {
        ev := OffsetCommitted;
      }
    }

    /** deleteInstanceId */
    method DeleteRequest() returns (req: Request)
      ensures req == ProxyHttpClient.RequestV2(server, InstancePath(), false)
    {
      req := ProxyHttpClient.RequestV2(server, InstancePath(), false);
    }

    /** The delete reply always ends the session with `finished`. */
    method OnDeleteReply(reply: Reply) returns (ev: Event)
      ensures ev.Finished?
      ensures IsHttpSuccess(reply.status) ==> ev.message == "instance " + instanceId + " deleted"
      ensures !IsHttpSuccess(reply.status) ==>
                ev.message == Join(["error deleting instance", instanceId, reply.text], " ")
    {
      if IsHttpSuccess(reply.status) {
        ev := Finished("instance " + instanceId + " deleted");
      } else {
        ev := Finished(Join(["error deleting instance", instanceId, reply.text], " "));
      }
    }
  }

  /** Exactly one receivedOffset per poll, and it comes last. */
  lemma OneOffsetPerPoll(items: seq<Json>)
    ensures var evs := ReceivedEvents(items) + [ReceivedOffset(LastOffset(items))];
            forall i :: 0 <= i < |evs| ==> (evs[i].ReceivedOffset? <==> i == |evs| - 1)
  {
  }
}
