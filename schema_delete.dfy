/** SchemaDelete (proxy/schema_delete.cpp, and SchemaUtils in
    proxy/schema_utils.cpp, which is the same code under other names and is
    fed by the listing signal "registeredSchemas"): deletes the schema with a given
    id by fetching the listing, finding the first entry with that id and
    deleting its subject and version. */
module SchemaDelete {

  import opened Json
  import opened Text
  import opened Registry

  datatype Effect =
    | GetSchemas
    | DeleteSchema(subject: string, version: int32)
    | SchemaError(message: string)
    | Deleted(success: bool, schemaId: int32, subject: string, version: int32)

  class Deleter {
    /** mDelete: the requested id, then the schema found for it. */
    var target: Schema

    constructor ()
      ensures target == Schema(0, "", "", "", 0, [])
    {
      target := Schema(0, "", "", "", 0, []);
    }

    /** deleteSchemaId: remember the id and ask for the listing; nothing is
        deleted yet. */
    method DeleteSchemaId(schemaId: int32) returns (out: seq<Effect>)
      modifies this
      ensures target == old(target).(schemaId := schemaId)
      ensures out == [GetSchemas]
    {
      target := target.(schemaId := schemaId);
      out := [GetSchemas];
    }

    /** onSchemaToDeleteList: one delete, for the first entry with the
        requested id, or an error when there is none. */
    method OnSchemaToDeleteList(list: seq<Schema>) returns (out: seq<Effect>)
      modifies this
      ensures target.schemaId == old(target.schemaId)
      ensures match FindById(list, old(target.schemaId))
              case Some(s) => target == s && out == [DeleteSchema(s.subject, s.version)]
              case None => target == old(target) && out == [SchemaError("Could not find schemaId " + IntToString(target.schemaId))]
    {
      var i := 0;
      while i < |list|
        invariant 0 <= i <= |list|
        invariant target == old(target)
        invariant forall j :: 0 <= j < i ==> list[j].schemaId != target.schemaId
      {
        var schema := list[i];
        if schema.schemaId == target.schemaId {
          target := schema;
          return [DeleteSchema(schema.subject, schema.version)];
        }
        i := i + 1;
      }
      out := [SchemaError("Could not find schemaId " + IntToString(target.schemaId))];
    }

    /** onSchemaDeleted: the report carries the requested id with the
        registry's subject and version. */
    method OnSchemaDeleted(success: bool, subject: string, version: int32) returns (out: seq<Effect>)
      ensures out == [Deleted(success, target.schemaId, subject, version)]
    {
      out := [Deleted(success, target.schemaId, subject, version)];
    }
  }
}
