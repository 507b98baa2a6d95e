/** SchemaRegistry of the newer revision (kproxy/schema_registry.cpp): the
    requests it sends to the Confluent schema registry and how it classifies
    the replies.  The client keeps no state besides its server address, so
    the handlers take the reply and return the signal they emit. */
module KProxySchemaRegistry {

  import opened Json
  import opened Text
  import opened Registry
  import KProxyHttpClient

  datatype Event =
    | SchemaList(schemas: seq<Schema>)
    | SchemaCreated(schemaId: int32)
    | SchemaDeleted(success: bool, subject: string, version: int32)
    | Failed(report: Report)

  function SchemasRequest(server: string): Request
  {
    KProxyHttpClient.RequestV3(server, "schemas")
  }

  /** The reply to the listing: a non-2xx status fails with the status, a
      body that is not an array fails with the body, and an array gives one
      Schema per element, in order.  A 2xx reply whose body is not JSON at
      all is left out (the handler renders the missing document). */
  method OnSchemasReply(reply: Reply) returns (ev: Event)
    requires IsHttpSuccess(reply.status) ==> reply.json.Some?
    ensures !IsHttpSuccess(reply.status) ==> ev == Failed(Plain("error: " + IntToString(reply.status)))
    ensures IsHttpSuccess(reply.status) && !reply.json.value.Arr? ==>
              ev == Failed(WithJson("Unexpected json reply ", reply.json.value))
    ensures IsHttpSuccess(reply.status) && reply.json.value.Arr? ==>
              ev.SchemaList? && |ev.schemas| == |reply.json.value.items| &&
              forall i :: 0 <= i < |ev.schemas| ==> ev.schemas[i] == SchemaFromJson(reply.json.value.items[i])
  {
    if !IsHttpSuccess(reply.status) {
      return Failed(Plain("error: " + IntToString(reply.status)));
    }
    var json := reply.json.value;
    if !json.Arr? {
      return Failed(WithJson("Unexpected json reply ", json));
    }
    var report: seq<Schema> := [];
    var i := 0;
    while i < |json.items|
      invariant 0 <= i <= |json.items|
      invariant |report| == i
      invariant forall j :: 0 <= j < i ==> report[j] == SchemaFromJson(json.items[j])
    {
      report := report + [SchemaFromJson(json.items[i])];
      i := i + 1;
    }
    ev := SchemaList(report);
  }

  /** One element of the create body's references: the referenced schema's
      subject as both name and subject, and its version. */
  function ReferenceEntry(s: Schema): Json
  {
    Obj(map["name" := Str(s.subject), "subject" := Str(s.subject), "version" := Num(s.version)])
  }

  function ReferenceEntries(references: seq<Schema>): (r: seq<Json>)
    ensures |r| == |references|
    ensures forall i :: 0 <= i < |references| ==> r[i] == ReferenceEntry(references[i])
  {
    if |references| == 0 then []
    else ReferenceEntries(references[..|references| - 1]) + [ReferenceEntry(references[|references| - 1])]
  }

  /** createSchemaJson: "schema" and "schemaType" always, "references" only
      when there are references. */
  function CreateSchemaJson(schema: string, schemaType: string, references: seq<Schema>): (b: Json)
    ensures b.Obj?
    ensures "schema" in b.fields && b.fields["schema"] == Str(schema)
    ensures "schemaType" in b.fields && b.fields["schemaType"] == Str(schemaType)
    ensures "references" in b.fields <==> |references| > 0
    ensures "references" in b.fields ==> b.fields["references"] == Arr(ReferenceEntries(references))
    ensures b.fields.Keys <= {"schema", "schemaType", "references"}
  {
    var json := map["schema" := Str(schema), "schemaType" := Str(schemaType)];
    var entries := ReferenceEntries(references);
    Obj(if |entries| > 0 then json["references" := Arr(entries)] else json)
  }

  /** Read back the way the registry lists references, the create body
      names each referenced schema by its subject and version, in order. */
  lemma CreateSchemaJsonReferences(schema: string, schemaType: string, references: seq<Schema>)
    requires |references| > 0
    ensures var refs := ReferencesFromJson(AsArray(CreateSchemaJson(schema, schemaType, references).fields["references"]));
            && |refs| == |references|
            && forall i :: 0 <= i < |references| ==>
                 refs[i] == Reference(references[i].subject, references[i].subject, references[i].version)
  {
  }

  function CreateRequest(server: string, subject: string): Request
  {
    KProxyHttpClient.RequestV3(server, "subjects/" + subject + "/versions")
  }

  /** The reply to a create: unreadable JSON fails, a document whose object
      has "id" reports the new id, anything else fails with the document.
      A network error alone decides nothing. */
  function OnCreateReply(reply: Reply): (ev: Event)
    ensures reply.json.None? ==> ev == Failed(Plain("Failed to read JSON reply"))
    ensures ev.SchemaCreated? <==> reply.json.Some? && "id" in AsObject(reply.json.value)
    ensures ev.SchemaCreated? ==> ev.schemaId == AsInt(AsObject(reply.json.value)["id"])
    ensures reply.json.Some? && !ev.SchemaCreated? ==> ev == Failed(WithJson("", reply.json.value))
  {
    if reply.json.None? then Failed(Plain("Failed to read JSON reply"))
    else
      var obj := AsObject(reply.json.value);
      if "id" in obj then SchemaCreated(AsInt(obj["id"]))
      else Failed(WithJson("", reply.json.value))
  }

  function DeleteRequest(server: string, subject: string, version: int32): Request
  {
    KProxyHttpClient.RequestV3(server, "subjects/" + subject + "/versions/" + IntToString(version))
  }

  /** The reply to a delete: a failure exactly when it is a JSON object
      with "error_code"; the subject and version are passed through. */
  function OnDeleteReply(reply: Reply, subject: string, version: int32): (ev: Event)
    ensures ev.SchemaDeleted? && ev.subject == subject && ev.version == version
    ensures !ev.success <==> reply.json.Some? && reply.json.value.Obj? && "error_code" in reply.json.value.fields
  {
    var failed := reply.json.Some? && reply.json.value.Obj? && "error_code" in reply.json.value.fields;
    SchemaDeleted(!failed, subject, version)
  }
}
