/** KafkaProxyV3 of the current revision (kproxy/kafka_proxy_v3.cpp): the
    v3 REST calls for the cluster id, topics, topic configs, consumer groups,
    lags, topic creation and deletion and JSON records.  Each reply handler
    returns the signals it emits. */
module KProxyKafkaProxyV3 {

  import opened Json
  import opened Text
  import opened RestV3
  import KProxyHttpClient

  datatype Group = Group(name: string, state: string)
  datatype Consumer = Consumer(groupId: string, consumerId: string, clientId: string)
  datatype GroupLag = GroupLag(groupName: string, consumerId: string, topic: string,
                               currentOffset: int32, endOffset: int32, lag: int32)
  datatype GroupLagSummary = GroupLagSummary(groupName: string, topic: string, consumerId: string,
                                             maxLag: int32, totalLag: int32)

  datatype Event =
    | Initialized(clusterId: string)
    | TopicList(topics: seq<Topic>)
    | GroupList(groups: seq<Group>)
    | ConsumerList(consumers: seq<Consumer>)
    | GroupLags(lags: seq<GroupLag>)
    | LagSummary(summary: GroupLagSummary)
    | TopicConfigs(configs: seq<TopicConfig>)
    | TopicCreated
    | TopicDeleted
    | MessageSent
    | Failed(message: string)

  const MissingData := "Unexpected JSON reply. Missing data"

  /** The group elements, read as Qt does: missing fields are empty or zero. */
  function GroupOf(item: Json): Group
  {
    var o := AsObject(item);
    Group(StrField(o, "consumer_group_id"), StrField(o, "state"))
  }

  function ConsumerOf(item: Json): Consumer
  {
    var o := AsObject(item);
    Consumer(StrField(o, "consumer_group_id"), StrField(o, "consumer_id"), StrField(o, "client_id"))
  }

  function LagOf(item: Json): GroupLag
  {
    var o := AsObject(item);
    GroupLag(StrField(o, "consumer_group_id"), StrField(o, "consumer_id"), StrField(o, "topic_name"),
             IntField(o, "current_offset"), IntField(o, "log_end_offset"), IntField(o, "lag"))
  }

  function SummaryOf(o: map<string, Json>): GroupLagSummary
  {
    GroupLagSummary(StrField(o, "consumer_group_id"), StrField(o, "max_lag_topic_name"), StrField(o, "consumer_id"),
                    IntField(o, "max_lag"), IntField(o, "total_lag"))
  }

  function NotFound(group: string): string
  {
    "group " + group + " not found"
  }

  class Proxy {
    const server: string
    /** mClusterID: set by the cluster-id reply, part of every later URL. */
    var clusterId: string

    constructor (server: string)
      ensures this.server == server && clusterId == ""
    {
      this.server := server;
      clusterId := "";
    }

    function ClusterPath(path: string): string
      reads this
    {
      "v3/clusters/" + clusterId + path
    }

    /** The cluster-id reply: the first data element's "cluster_id" is
        stored and announced; an empty result fails with getDataArray's
        message and leaves the id as it was. */
    method OnClusterIdReply(reply: Reply) returns (events: seq<Event>)
      modifies this
      ensures var d := DataArray(reply, MissingData);
              && (d.data == [] ==> clusterId == old(clusterId) && events == [Failed(d.error)] && d.error != "")
              && (d.data != [] ==> clusterId == StrField(AsObject(d.data[0]), "cluster_id") && events == [Initialized(clusterId)])
    {
      var d := DataArray(reply, MissingData);
      if d.data == [] {
        events := [Failed(d.error)];
      } else {
        clusterId := StrField(AsObject(d.data[0]), "cluster_id");
        events := [Initialized(clusterId)];
      }
    }

    function ListTopicsRequest(): Request
      reads this
    {
      KProxyHttpClient.RequestV3(server, ClusterPath("/topics"))
    }

    /** listTopics: an empty or failed result is a failure; otherwise the
        topics in reply order. */
    method OnTopicsReply(reply: Reply) returns (events: seq<Event>)
      ensures var d := DataArray(reply, MissingData);
              && (d.data == [] ==> events == [Failed(d.error)])
              && (d.data != [] ==> |events| == 1 && events[0].TopicList? && |events[0].topics| == |d.data|
                                   && forall i :: 0 <= i < |d.data| ==> events[0].topics[i] == TopicOf(d.data[i]))
    {
      var d := DataArray(reply, MissingData);
      if d.data == [] {
        return [Failed(d.error)];
      }
      var topics := MapItems(d.data, TopicOf);
      events := [TopicList(topics)];
    }

    /** readTopicConfig: the same failure rule, then one config per
        element. */
    method OnTopicConfigReply(reply: Reply) returns (events: seq<Event>)
      ensures var d := DataArray(reply, MissingData);
              && (d.data == [] ==> events == [Failed(d.error)])
              && (d.data != [] ==> |events| == 1 && events[0].TopicConfigs? && |events[0].configs| == |d.data|
                                   && forall i :: 0 <= i < |d.data| ==> events[0].configs[i] == ConfigOf(d.data[i]))
    {
      var d := DataArray(reply, MissingData);
      if d.data == [] {
        return [Failed(d.error)];
      }
      var configs := MapItems(d.data, ConfigOf);
      events := [TopicConfigs(configs)];
    }

    /** listGroups tests the message instead of the emptiness of the data;
        the two agree, so an empty group list is a failure too. */
    method OnGroupsReply(reply: Reply) returns (events: seq<Event>)
      ensures var d := DataArray(reply, MissingData);
              && (d.data == [] ==> events == [Failed(d.error)])
              && (d.data != [] ==> |events| == 1 && events[0].GroupList? && |events[0].groups| == |d.data|
                                   && forall i :: 0 <= i < |d.data| ==> events[0].groups[i] == GroupOf(d.data[i]))
    {
      var d := DataArray(reply, MissingData);
      if d.error != "" {
        return [Failed(d.error)];
      }
      var groups := MapItems(d.data, GroupOf);
      events := [GroupList(groups)];
    }

    /** getGroupLag: a 404 means the group does not exist, before any other
        check. */
    method OnGroupLagReply(group: string, reply: Reply) returns (events: seq<Event>)
      ensures reply.status == 404 ==> events == [Failed(NotFound(group))]
      ensures var d := DataArray(reply, MissingData);
              && (reply.status != 404 && d.data == [] ==> events == [Failed(d.error)])
              && (reply.status != 404 && d.data != [] ==>
                    |events| == 1 && events[0].GroupLags? && |events[0].lags| == |d.data|
                    && forall i :: 0 <= i < |d.data| ==> events[0].lags[i] == LagOf(d.data[i]))
    {
      if reply.status == 404 {
        return [Failed(NotFound(group))];
      }
      var d := DataArray(reply, MissingData);
      if d.error != "" {
        return [Failed(d.error)];
      }
      var lags := MapItems(d.data, LagOf);
      events := [GroupLags(lags)];
    }

    /** getGroupLagSummary: a 404 first; then the body must be a JSON
        object. */
    method OnLagSummaryReply(group: string, reply: Reply) returns (events: seq<Event>)
      ensures reply.status == 404 ==> events == [Failed(NotFound(group))]
      ensures reply.status != 404 && (reply.json.None? || !reply.json.value.Obj?) ==>
                events == [Failed("Could not read lag summary")]
      ensures reply.status != 404 && reply.json.Some? && reply.json.value.Obj? ==>
                events == [LagSummary(SummaryOf(reply.json.value.fields))]
    {
      if reply.status == 404 {
        return [Failed(NotFound(group))];
      }
      if reply.json.None? || !reply.json.value.Obj? {
        return [Failed("Could not read lag summary")];
      }
      events := [LagSummary(SummaryOf(reply.json.value.fields))];
    }

    /** getGroupConsumers: a 404 first, then the data array. */
    method OnGroupConsumersReply(group: string, reply: Reply) returns (events: seq<Event>)
      ensures reply.status == 404 ==> events == [Failed(NotFound(group))]
      ensures var d := DataArray(reply, MissingData);
              && (reply.status != 404 && d.data == [] ==> events == [Failed(d.error)])
              && (reply.status != 404 && d.data != [] ==>
                    |events| == 1 && events[0].ConsumerList? && |events[0].consumers| == |d.data|
                    && forall i :: 0 <= i < |d.data| ==> events[0].consumers[i] == ConsumerOf(d.data[i]))
    {
      if reply.status == 404 {
        return [Failed(NotFound(group))];
      }
      var d := DataArray(reply, MissingData);
      if d.error != "" {
        return [Failed(d.error)];
      }
      var consumers := MapItems(d.data, ConsumerOf);
      events := [ConsumerList(consumers)];
    }

    /** createTopic posts CreateTopicBody; a 2xx reply is success. */
    method OnCreateTopicReply(reply: Reply) returns (events: seq<Event>)
      ensures IsHttpSuccess(reply.status) <==> events == [TopicCreated]
      ensures !IsHttpSuccess(reply.status) ==> events == [Failed(FailureMessage("Failed to create the topic: ", reply))]
    {
      if IsHttpSuccess(reply.status) {
        events := [TopicCreated];
      } else {
        events := [Failed(FailureMessage("Failed to create the topic: ", reply))];
      }
    }

    method OnDeleteTopicReply(reply: Reply) returns (events: seq<Event>)
      ensures IsHttpSuccess(reply.status) <==> events == [TopicDeleted]
      ensures !IsHttpSuccess(reply.status) ==> events == [Failed(FailureMessage("Failed to delete the topic: ", reply))]
    {
      if IsHttpSuccess(reply.status) {
        events := [TopicDeleted];
      } else {
        events := [Failed(FailureMessage("Failed to delete the topic: ", reply))];
      }
    }

    /** sendMessage posts RecordBody(key, json) to the topic's records. */
    function SendMessageRequest(topic: string): Request
      reads this
    {
      KProxyHttpClient.RequestV3(server, ClusterPath("/topics/" + topic + "/records"))
    }

    method OnSendMessageReply(reply: Reply) returns (events: seq<Event>)
      ensures events == [MessageSent] <==> SendReply(reply).Sent?
      ensures SendReply(reply).SendFailed? ==> events == [Failed(SendReply(reply).message)]
    {
      var r := SendReply(reply);
      if r.Sent? {
        events := [MessageSent];
      } else {
        events := [Failed(r.message)];
      }
    }
  }
}
