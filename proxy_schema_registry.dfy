/** SchemaRegistry of the older revision (proxy/schema_registry.cpp): the
    listing, the protobuf registration and the delete, each reporting
    through `ready(success, message)` or a dedicated signal. */
module ProxySchemaRegistry {

  import opened Json
  import opened Text
  import opened Registry
  import ProxyHttpClient

  datatype Event =
    | RegisteredSchemas(schemas: seq<Schema>)
    | Ready(success: bool, report: Report)
    | SchemaDeleted(success: bool, subject: string, version: int32)

  function SchemasRequest(server: string): Request
  {
    ProxyHttpClient.RequestV3(server, "schemas")
  }

  /** The reply to the listing: failures give only `ready(false, …)`; an
      array gives the schemas, one per element in order, then `ready(true)`.
      A 2xx reply whose body is not JSON at all is left out (the handler
      renders the missing document). */
  method OnSchemasReply(reply: Reply) returns (events: seq<Event>)
    requires IsHttpSuccess(reply.status) ==> reply.json.Some?
    ensures !IsHttpSuccess(reply.status) ==> events == [Ready(false, Plain("error: " + IntToString(reply.status)))]
    ensures IsHttpSuccess(reply.status) && !reply.json.value.Arr? ==>
              events == [Ready(false, WithJson("Unexpected json reply ", reply.json.value))]
    ensures IsHttpSuccess(reply.status) && reply.json.value.Arr? ==>
              && |events| == 2 && events[0].RegisteredSchemas? && events[1] == Ready(true, Plain(""))
              && |events[0].schemas| == |reply.json.value.items|
              && forall i :: 0 <= i < |events[0].schemas| ==> events[0].schemas[i] == SchemaFromJson(reply.json.value.items[i])
  {
    if !IsHttpSuccess(reply.status) {
      return [Ready(false, Plain("error: " + IntToString(reply.status)))];
    }
    var json := reply.json.value;
    if !json.Arr? {
      return [Ready(false, WithJson("Unexpected json reply ", json))];
    }
    var report: seq<Schema> := [];
    var i := 0;
    while i < |json.items|
      invariant 0 <= i <= |json.items|
      invariant |report| == i
      invariant forall j :: 0 <= j < i ==> report[j] == SchemaFromJson(json.items[j])
    {
      report := report + [SchemaFromJson(json.items[i])];
      i := i + 1;
    }
    events := [RegisteredSchemas(report), Ready(true, Plain(""))];
  }

  /** registerProtobufRequest: the file data as a PROTOBUF schema, with a
      single reference when a reference subject is given. */
  function RegisterProtobufRequest(protofileData: string, referenceSubject: string, referenceVersion: int32): (b: Json)
    ensures b.Obj?
    ensures "schema" in b.fields && b.fields["schema"] == Str(protofileData)
    ensures "schemaType" in b.fields && b.fields["schemaType"] == Str("PROTOBUF")
    ensures "references" in b.fields <==> referenceSubject != ""
    ensures "references" in b.fields ==>
              b.fields["references"] == Arr([Obj(map["name" := Str(referenceSubject), "subject" := Str(referenceSubject),
                                                      "version" := Num(referenceVersion)])])
    ensures b.fields.Keys <= {"schema", "schemaType", "references"}
  {
    var json := map["schema" := Str(protofileData), "schemaType" := Str("PROTOBUF")];
    if referenceSubject != "" then
      Obj(json["references" := Arr([Obj(map["name" := Str(referenceSubject), "subject" := Str(referenceSubject),
                                            "version" := Num(referenceVersion)])])])
    else Obj(json)
  }

  /** The registry's listing reads the registration's reference back as the
      subject and version given. */
  lemma RegisterReferenceReadBack(protofileData: string, referenceSubject: string, referenceVersion: int32)
    requires referenceSubject != ""
    ensures ReferencesFromJson(AsArray(RegisterProtobufRequest(protofileData, referenceSubject, referenceVersion).fields["references"]))
            == [Reference(referenceSubject, referenceSubject, referenceVersion)]
  {
  }

  function RegisterRequest(server: string, subject: string): Request
  {
    ProxyHttpClient.RequestV3(server, "subjects/" + subject + "/versions")
  }

  /** The reply to a registration.  An "id" means success whatever the
      network layer said; an "error_code" without "id" is a failure carrying
      the document; with neither, only the network error decides. */
  method OnRegisterReply(reply: Reply) returns (ev: Event)
    ensures reply.json.None? ==> ev == Ready(false, Plain("Failed to read JSON reply"))
    ensures reply.json.Some? ==>
              var obj := AsObject(reply.json.value);
              && ("id" in obj ==> ev == Ready(true, Plain("Registered schema_id " + IntToString(AsInt(obj["id"])))))
              && ("id" !in obj && "error_code" in obj ==> ev == Ready(false, WithJson("", reply.json.value)))
              && ("id" !in obj && "error_code" !in obj ==> ev == Ready(!reply.networkError, Plain("")))
  {
    var success := true;
    if reply.networkError {
      success := false;
    }
    if reply.json.None? {
      return Ready(false, Plain("Failed to read JSON reply"));
    }
    var obj := AsObject(reply.json.value);
    var msg := Plain("");
    if "id" in obj {
      msg := Plain("Registered schema_id " + IntToString(AsInt(obj["id"])));
      success := true;
    } else {
      if "error_code" in obj {
        msg := WithJson("", reply.json.value);
        success := false;
      }
    }
    ev := Ready(success, msg);
  }

  function DeleteRequest(server: string, subject: string, version: int32): Request
  {
    ProxyHttpClient.RequestV3(server, "subjects/" + subject + "/versions/" + IntToString(version))
  }

  /** The reply to a delete: a failure exactly when the document is an
      object with "error_code".  A reply that is not JSON at all is left out
      (the handler asks the missing document whether it is an object). */
  function OnDeleteReply(reply: Reply, subject: string, version: int32): (ev: Event)
    requires reply.json.Some?
    ensures ev.SchemaDeleted? && ev.subject == subject && ev.version == version
    ensures !ev.success <==> reply.json.value.Obj? && "error_code" in reply.json.value.fields
  {
    SchemaDeleted(!("error_code" in AsObject(reply.json.value)), subject, version)
  }
}
