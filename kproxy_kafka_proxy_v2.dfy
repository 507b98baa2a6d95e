/** KafkaProxyV2 of the newer revision (kproxy/kafka_proxy_v2.cpp): a
    consumer session of the Kafka REST proxy, v2 API, for a configured media
    type.  Besides the group name and the instance id it keeps whether a
    poll is pending, so that a stop can abort it.  Each call builds a
    request; each reply handler returns the signals it emits, in order.
    Base64 decoding is a parameter. */
module KProxyKafkaProxyV2 {

  import opened Json
  import opened Text
  import opened Subscription
  import opened WireFraming
  import KProxyHttpClient

  /** InputMessage<T>: a record as reported to the consumer. */
  datatype InputMessage<T> = InputMessage(key: string, offset: int32, partition: int32, topic: string, value: T)

  datatype Event =
    | ObtainedInstanceId(instanceId: string)
    | Failed(message: string)
    | Subscribed(topics: string)
    | ReceivedJson(json: InputMessage<Json>)
    | ReceivedBinary(binary: InputMessage<seq<byte>>)
    | ReceivedOffset(topic: string, offset: int32)
    | ReadingComplete
    | OffsetCommitted
    | Finished(message: string)

  /** The consumer-instance settings: the format is the configured media
      type, and of the two "auto.commit.enable" entries the later, boolean
      one is kept. */
  function InstanceBody(mediaType: string): (b: Json)
    ensures b.Obj? && b.fields.Keys == {"format", "fetch.min.bytes", "consumer.request.timeout.ms",
                                        "auto.offset.reset", "auto.commit.enable"}
    ensures b.fields["format"] == Str(mediaType)
    ensures b.fields["fetch.min.bytes"] == Num(1)
    ensures b.fields["consumer.request.timeout.ms"] == Num(10000)
    ensures b.fields["auto.offset.reset"] == Str("earliest")
    ensures b.fields["auto.commit.enable"] == Bool(false)
  {
    Obj(map["format" := Str(mediaType),
            "fetch.min.bytes" := Num(1),
            "consumer.request.timeout.ms" := Num(10000),
            "auto.offset.reset" := Str("earliest"),
            "auto.commit.enable" := Str("false"),
            "auto.commit.enable" := Bool(false)])
  }

  /** The topics array of the subscribe body. */
  function TopicArray(topics: seq<string>): (r: seq<Json>)
    ensures |r| == |topics|
    ensures forall i :: 0 <= i < |topics| ==> r[i] == Str(topics[i])
  {
    if |topics| == 0 then [] else TopicArray(topics[..|topics| - 1]) + [Str(topics[|topics| - 1])]
  }

  /** The subscribe body lists every requested topic, in order: reading the
      names back gives the topics. */
  lemma TopicArrayNames(topics: seq<string>)
    ensures Names(TopicArray(topics)) == topics
  {
  }

  function CommitBody(topic: string, offset: int32): (b: Json)
    ensures b.Obj? && b.fields.Keys == {"offsets"}
    ensures AsArray(b.fields["offsets"]) == [Obj(map["topic" := Str(topic), "partition" := Num(0), "offset" := Num(offset)])]
  {
    Obj(map["offsets" := Arr([Obj(map["topic" := Str(topic), "partition" := Num(0), "offset" := Num(offset)])])])
  }

  /** reportInputJson: the record's value object as a document. */
  function JsonInput(o: map<string, Json>): InputMessage<Json>
  {
    InputMessage(StrField(o, "key"), IntField(o, "offset"), IntField(o, "partition"), StrField(o, "topic"),
                 Obj(AsObject(Field(o, "value"))))
  }

  /** reportInputBinary: the record's value decoded from base64. */
  function BinaryInput(o: map<string, Json>, decode: string -> seq<byte>): InputMessage<seq<byte>>
  {
    InputMessage(StrField(o, "key"), IntField(o, "offset"), IntField(o, "partition"), StrField(o, "topic"),
                 decode(StrField(o, "value")))
  }

  /** What one record of a poll emits: the record itself for a known media
      type, followed by its topic and offset; nothing for any other media
      type. */
  function RecordEvents(item: Json, mediaType: string, decode: string -> seq<byte>): (r: seq<Event>)
    ensures mediaType != KProxyHttpClient.MediaProtobuf && mediaType != KProxyHttpClient.MediaBinary ==> r == []
    ensures mediaType == KProxyHttpClient.MediaProtobuf ==> |r| == 2 && r[0].ReceivedJson?
    ensures mediaType == KProxyHttpClient.MediaBinary ==> |r| == 2 && r[0].ReceivedBinary?
    ensures |r| == 2 ==> r[1] == ReceivedOffset(StrField(AsObject(item), "topic"), IntField(AsObject(item), "offset"))
  {
    var o := AsObject(item);
    if mediaType == KProxyHttpClient.MediaProtobuf then
      [ReceivedJson(JsonInput(o)), ReceivedOffset(StrField(o, "topic"), IntField(o, "offset"))]
    else if mediaType == KProxyHttpClient.MediaBinary then
      [ReceivedBinary(BinaryInput(o, decode)), ReceivedOffset(StrField(o, "topic"), IntField(o, "offset"))]
    else []
  }

  /** The events of a whole poll, before readingComplete. */
  function PollEvents(items: seq<Json>, mediaType: string, decode: string -> seq<byte>): seq<Event>
  {
    if |items| == 0 then []
    else PollEvents(items[..|items| - 1], mediaType, decode) + RecordEvents(items[|items| - 1], mediaType, decode)
  }

  /** The (topic, offset) pairs a sequence of events reports, in order. */
  function Offsets(events: seq<Event>): seq<(string, int32)>
  {
    if |events| == 0 then []
    else Offsets(events[..|events| - 1])
         + (var e := events[|events| - 1]; if e.ReceivedOffset? then [(e.topic, e.offset)] else [])
  }

  /** The (topic, offset) pair of every record, in order. */
  function RecordOffsets(items: seq<Json>): (r: seq<(string, int32)>)
    ensures |r| == |items|
    ensures forall i :: 0 <= i < |items| ==>
      r[i] == (StrField(AsObject(items[i]), "topic"), IntField(AsObject(items[i]), "offset"))
  {
    if |items| == 0 then []
    else RecordOffsets(items[..|items| - 1])
         + [(StrField(AsObject(items[|items| - 1]), "topic"), IntField(AsObject(items[|items| - 1]), "offset"))]
  }

  lemma {:induction false} OffsetsAppend(a: seq<Event>, b: seq<Event>)
    ensures Offsets(a + b) == Offsets(a) + Offsets(b)
    decreases |b|
  {
    if |b| > 0 {
      var b' := b[..|b| - 1];
      assert (a + b)[..|a + b| - 1] == a + b';
      OffsetsAppend(a, b');
    } else {
      assert a + b == a;
    }
  }

  /** For the two known media types every record reports its offset once,
      in record order; for any other media type no offset is reported, so
      nothing is committed. */
  lemma {:induction false} PollOffsets(items: seq<Json>, mediaType: string, decode: string -> seq<byte>)
    ensures mediaType == KProxyHttpClient.MediaProtobuf || mediaType == KProxyHttpClient.MediaBinary ==>
              Offsets(PollEvents(items, mediaType, decode)) == RecordOffsets(items)
    ensures mediaType != KProxyHttpClient.MediaProtobuf && mediaType != KProxyHttpClient.MediaBinary ==>
              Offsets(PollEvents(items, mediaType, decode)) == []
    decreases |items|
  {
    if |items| > 0 {
      var init := items[..|items| - 1];
      var last := items[|items| - 1];
      PollOffsets(init, mediaType, decode);
      OffsetsAppend(PollEvents(init, mediaType, decode), RecordEvents(last, mediaType, decode));
      var r := RecordEvents(last, mediaType, decode);
      if |r| == 2 {
        assert r[..1][..0] == [];
        assert Offsets(r[..1]) == [];
        assert Offsets(r) == [(r[1].topic, r[1].offset)];
        assert RecordOffsets(items) == RecordOffsets(init) + [(r[1].topic, r[1].offset)];
      } else {
        assert r == [];
      }
    }
  }

  class Session {
    const server: string
    const mediaType: string
    var groupName: string
    var instanceId: string
    /** mPendingRead: a poll has been issued and not cleared. */
    var pendingRead: bool

    constructor (server: string, mediaType: string)
      ensures this.server == server && this.mediaType == mediaType
      ensures groupName == "" && instanceId == "" && !pendingRead
    {
      this.server := server;
      this.mediaType := mediaType;
      groupName := "";
      instanceId := "";
      pendingRead := false;
    }

    function InstancePath(): string
      reads this
    {
      "consumers/" + groupName + "/instances/" + instanceId
    }

    /** requestInstanceId: remembers the group and posts the settings. */
    method RequestInstanceId(group: string) returns (req: Request, body: Json)
      modifies this`groupName
      ensures groupName == group
      ensures req == KProxyHttpClient.RequestV2(server, "consumers/" + group, "")
      ensures body == InstanceBody(mediaType)
    {
      groupName := group;
      req := KProxyHttpClient.RequestV2(server, "consumers/" + group, "");
      body := InstanceBody(mediaType);
    }

    /** The reply to the instance creation, handled as in the older
        revision. */
    method OnInstanceReply(reply: Reply) returns (ev: Event)
      modifies this`instanceId
      ensures var obj := reply.json.Some? && reply.json.value.Obj?;
              && (!obj ==> ev == Failed("Failed to obtain instanceId") && instanceId == old(instanceId))
              && (obj && "instance_id" in reply.json.value.fields ==>
                    instanceId == AsString(reply.json.value.fields["instance_id"]) && ev == ObtainedInstanceId(instanceId))
              && (obj && "instance_id" !in reply.json.value.fields ==>
                    ev == Failed(StrField(reply.json.value.fields, "message")) && instanceId == old(instanceId))
    {
      if reply.json.None? || !reply.json.value.Obj? {
        ev := Failed("Failed to obtain instanceId");
        return;
      }
      var obj := reply.json.value.fields;
      if "instance_id" in obj {
        instanceId := AsString(obj["instance_id"]);
        ev := ObtainedInstanceId(instanceId);
      } else {
        ev := Failed(StrField(obj, "message"));
      }
    }

    /** subscribe: the body lists the requested topics in order. */
    method SubscribeRequest(topics: seq<string>) returns (req: Request, body: Json)
      ensures req == KProxyHttpClient.RequestV2(server, InstancePath() + "/subscription", "")
      ensures body.Obj? && body.fields.Keys == {"topics"} && Names(AsArray(body.fields["topics"])) == topics
    {
      req := KProxyHttpClient.RequestV2(server, InstancePath() + "/subscription", "");
      var names: seq<Json> := [];
      var i := 0;
      while i < |topics|
        invariant 0 <= i <= |topics|
        invariant names == TopicArray(topics[..i])
      {
        assert topics[..i + 1][..i] == topics[..i];
        names := names + [Str(topics[i])];
        i := i + 1;
      }
      assert topics[..i] == topics;
      TopicArrayNames(topics);
      body := Obj(map["topics" := Arr(names)]);
    }

    /** The reply to the subscription post: on success the subscription is
        read back with a GET on the same url, otherwise the session fails. */
    method OnSubscribePosted(reply: Reply) returns (ev: Option<Event>, next: Option<Request>)
      ensures ev.None? <==> IsHttpSuccess(reply.status)
      ensures ev.Some? ==> ev.value == Failed("failed to subscribe") && next.None?
      ensures ev.None? ==> next == Some(KProxyHttpClient.RequestV2(server, InstancePath() + "/subscription", ""))
    {
      if !IsHttpSuccess(reply.status) {
        return Some(Failed("failed to subscribe")), None;
      }
      return None, Some(KProxyHttpClient.RequestV2(server, InstancePath() + "/subscription", ""));
    }

    /** The subscription read back: the topic names joined into one text.
        A document that is not an object reports the failure and then goes
        on: its object() is empty, so an empty subscription follows. */
    method OnSubscriptionReply(reply: Reply) returns (evs: seq<Event>)
      requires reply.json.Some?
      ensures reply.json.value.Obj? ==>
                evs == [Subscribed(SubscriptionText(AsArray(Field(reply.json.value.fields, "topics"))))]
      ensures !reply.json.value.Obj? ==> evs == [Failed("failed to subscribe"), Subscribed("")]
    {
      evs := [];
      if !reply.json.value.Obj? {
        evs := [Failed("failed to subscribe")];
      }
      var topics := AsArray(DocField(reply.json.value, "topics"));
      var subscription := "";
      var i := 0;
      while i < |topics|
        invariant 0 <= i <= |topics|
        invariant subscription == SubscriptionText(topics[..i])
      {
        assert topics[..i + 1][..i] == topics[..i];
        if subscription != "" {
          subscription := subscription + ", ";
        }
        subscription := subscription + AsString(topics[i]);
        i := i + 1;
      }
      assert topics[..i] == topics;
      evs := evs + [Subscribed(subscription)];
    }

    /** stopReading: a pending poll is aborted and forgotten.  Aborting
        delivers the poll's reply at once, unreadable, and that reply emits
        nothing (see OnRecordsReply). */
    method StopReading() returns (aborted: bool)
      modifies this`pendingRead
      ensures aborted == old(pendingRead) && !pendingRead
    {
      aborted := pendingRead;
      if pendingRead {
        pendingRead := false;
      }
    }

    /** getRecords: the poll asks for the configured media type and becomes
        the pending read. */
    method GetRecords() returns (req: Request)
      modifies this`pendingRead
      ensures pendingRead
      ensures req == KProxyHttpClient.RequestV2(server, InstancePath() + "/records", mediaType)
    {
      req := KProxyHttpClient.RequestV2(server, InstancePath() + "/records", mediaType);
      pendingRead := true;
    }

    /** The poll's reply.  An unreadable (aborted) reply clears the pending
        read and emits nothing.  A reply that is not an array fails with
        "Read error. " and the object's message.  An array emits the events
        of every record, then readingComplete once.  A readable reply whose
        body is not JSON at all is left out (the handler asks the missing
        document whether it is an object). */
    method OnRecordsReply(readable: bool, reply: Reply, decode: string -> seq<byte>) returns (events: seq<Event>)
      requires pendingRead
      requires readable ==> reply.json.Some?
      modifies this`pendingRead
      ensures !readable ==> events == [] && !pendingRead
      ensures readable ==> pendingRead
      ensures readable && !reply.json.value.Arr? ==>
                events == [Failed("Read error. " + (if reply.json.value.Obj? then StrField(reply.json.value.fields, "message") else ""))]
      ensures readable && reply.json.value.Arr? ==>
                events == PollEvents(reply.json.value.items, mediaType, decode) + [ReadingComplete]
    {
      if !readable {
        pendingRead := false;
        return [];
      }
      var json := reply.json.value;
      if !json.Arr? {
        var error := "Read error. ";
        if json.Obj? {
          error := error + StrField(json.fields, "message");
        } else {
          assert error == error + "";
        }
        return [Failed(error)];
      }
      var items := json.items;
      events := [];
      var i := 0;
      while i < |items|
        invariant 0 <= i <= |items|
        invariant events == PollEvents(items[..i], mediaType, decode)
      {
        assert items[..i + 1][..i] == items[..i];
        var obj := AsObject(items[i]);
        if mediaType == KProxyHttpClient.MediaProtobuf {
          events := events + [ReceivedJson(JsonInput(obj))];
        } else if mediaType == KProxyHttpClient.MediaBinary {
          events := events + [ReceivedBinary(BinaryInput(obj, decode))];
        } else {
          i := i + 1;
          continue;
        }
        var offset := IntField(obj, "offset");
        var topic := StrField(obj, "topic");
        events := events + [ReceivedOffset(topic, offset)];
        i := i + 1;
      }
      assert items[..i] == items;
      events := events + [ReadingComplete];
    }

    /** commitOffset */
    method CommitRequest(topic: string, offset: int32) returns (req: Request, body: Json)
      ensures req == KProxyHttpClient.RequestV2(server, InstancePath() + "/offsets", "")
      ensures body == CommitBody(topic, offset)
    {
      req := KProxyHttpClient.RequestV2(server, InstancePath() + "/offsets", "");
      body := CommitBody(topic, offset);
    }

    method OnCommitReply(reply: Reply) returns (ev: Event)
      ensures IsHttpSuccess(reply.status) <==> ev == OffsetCommitted
      ensures !IsHttpSuccess(reply.status) ==> ev == Failed("error " + IntToString(reply.status))
    {
      if !IsHttpSuccess(reply.status) {
        ev := Failed("error " + IntToString(reply.status));
      } else {
        ev := OffsetCommitted;
      }
    }

    /** deleteInstanceId */
    method DeleteRequest() returns (req: Request)
      ensures req == KProxyHttpClient.RequestV2(server, InstancePath(), "")
    {
      req := KProxyHttpClient.RequestV2(server, InstancePath(), "");
    }

    /** The delete reply always ends the session with `finished`. */
    method OnDeleteReply(reply: Reply) returns (ev: Event)
      ensures ev.Finished?
      ensures IsHttpSuccess(reply.status) ==> ev.message == "instance " + instanceId + " deleted"
      ensures !IsHttpSuccess(reply.status) ==>
                ev.message == Join(["error deleting instance", instanceId, reply.text], " ")
    {
      if IsHttpSuccess(reply.status) {
        ev := Finished("instance " + instanceId + " deleted");
      } else {
        ev := Finished(Join(["error deleting instance", instanceId, reply.text], " "));
      }
    }
  }
}
