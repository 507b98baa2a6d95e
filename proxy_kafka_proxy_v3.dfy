/** KafkaProxyV3 of the older revision (proxy/kafka_proxy_v3.cpp): the same
    v3 calls, reported through the client's `ready(success, message)` signal
    and `initialized(success)`. */
module ProxyKafkaProxyV3 {

  import opened Json
  import opened Text
  import opened RestV3
  import ProxyHttpClient

  datatype Event =
    | Ready(success: bool, message: string)
    | Initialized(success: bool)
    | Topics(topics: seq<Topic>)
    | TopicConfigs(configs: seq<TopicConfig>)

  const MissingData := "Unexpected JSON reply in GetClusterID"

  class Proxy {
    const server: string
    var clusterId: string

    constructor (server: string)
      ensures this.server == server && clusterId == ""
    {
      this.server := server;
      clusterId := "";
    }

    function ClusterPath(path: string): string
      reads this
    {
      "v3/clusters/" + clusterId + path
    }

    /** getClusterId: success stores the first element's "cluster_id" and
        reports it; failure reports getDataArray's message; `initialized`
        follows `ready` with the same outcome. */
    method OnClusterIdReply(reply: Reply) returns (events: seq<Event>)
      modifies this
      ensures var d := DataArray(reply, MissingData);
              && (d.data == [] ==> clusterId == old(clusterId) && events == [Ready(false, d.error), Initialized(false)])
              && (d.data != [] ==> clusterId == StrField(AsObject(d.data[0]), "cluster_id")
                                   && events == [Ready(true, clusterId), Initialized(true)])
      ensures |events| == 2 && events[0].Ready? && events[1] == Initialized(events[0].success)
    {
      var d := DataArray(reply, MissingData);
      if d.data == [] {
        events := [Ready(false, d.error), Initialized(false)];
      } else {
        clusterId := StrField(AsObject(d.data[0]), "cluster_id");
        events := [Ready(true, clusterId), Initialized(true)];
      }
    }

    function ListTopicsRequest(): Request
      reads this
    {
      ProxyHttpClient.RequestV3(server, ClusterPath("/topics"))
    }

    /** listTopics: the topics, then `ready(true, "")`; a failure gives only
        `ready(false, msg)`. */
    method OnTopicsReply(reply: Reply) returns (events: seq<Event>)
      ensures var d := DataArray(reply, MissingData);
              && (d.data == [] ==> events == [Ready(false, d.error)])
              && (d.data != [] ==> |events| == 2 && events[0].Topics? && events[1] == Ready(true, "")
                                   && |events[0].topics| == |d.data|
                                   && forall i :: 0 <= i < |d.data| ==> events[0].topics[i] == TopicOf(d.data[i]))
    {
      var d := DataArray(reply, MissingData);
      if d.data == [] {
        return [Ready(false, d.error)];
      }
      var topics := MapItems(d.data, TopicOf);
      events := [Topics(topics), Ready(true, "")];
    }

    /** readTopicConfig: a failure also reports `initialized(false)`. */
    method OnTopicConfigReply(reply: Reply) returns (events: seq<Event>)
      ensures var d := DataArray(reply, MissingData);
              && (d.data == [] ==> events == [Ready(false, d.error), Initialized(false)])
              && (d.data != [] ==> |events| == 2 && events[0].TopicConfigs? && events[1] == Ready(true, "")
                                   && |events[0].configs| == |d.data|
                                   && forall i :: 0 <= i < |d.data| ==> events[0].configs[i] == ConfigOf(d.data[i]))
    {
      var d := DataArray(reply, MissingData);
      if d.data == [] {
        return [Ready(false, d.error), Initialized(false)];
      }
      var configs := MapItems(d.data, ConfigOf);
      events := [TopicConfigs(configs), Ready(true, "")];
    }

    method OnCreateTopicReply(reply: Reply) returns (ev: Event)
      ensures ev.Ready? && (ev.success <==> IsHttpSuccess(reply.status))
      ensures IsHttpSuccess(reply.status) ==> ev.message == ""
      ensures !IsHttpSuccess(reply.status) ==> ev.message == FailureMessage("Failed to create the topic: ", reply)
    {
      if IsHttpSuccess(reply.status) {
        ev := Ready(true, "");
      } else {
        ev := Ready(false, FailureMessage("Failed to create the topic: ", reply));
      }
    }

    method OnDeleteTopicReply(reply: Reply) returns (ev: Event)
      ensures ev.Ready? && (ev.success <==> IsHttpSuccess(reply.status))
      ensures IsHttpSuccess(reply.status) ==> ev.message == ""
      ensures !IsHttpSuccess(reply.status) ==> ev.message == FailureMessage("Failed to delete the topic: ", reply)
    {
      if IsHttpSuccess(reply.status) {
        ev := Ready(true, "");
      } else {
        ev := Ready(false, FailureMessage("Failed to delete the topic: ", reply));
      }
    }

    /** sendProtobufData posts RecordBody(key, json) to the topic's
        records; only `error_code` 200 is success. */
    function SendRequest(topic: string): Request
      reads this
    {
      ProxyHttpClient.RequestV3(server, ClusterPath("/topics/" + topic + "/records"))
    }

    method OnSendReply(reply: Reply) returns (ev: Event)
      ensures ev.Ready? && (ev.success <==> SendReply(reply).Sent?)
      ensures ev.success ==> ev.message == ""
      ensures !ev.success ==> ev.message == SendReply(reply).message
    {
      var r := SendReply(reply);
      if r.Sent? {
        ev := Ready(true, "");
      } else {
        ev := Ready(false, r.message);
      }
    }
  }
}
