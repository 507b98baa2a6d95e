/** SchemaCreate (kproxy/schema_create.cpp): registers a schema that refers
    to other schemas by id.  Without references it creates at once;
    otherwise it keeps the request, fetches the listing, and resolves every
    id against it before creating. */
module SchemaCreate {

  import opened Json
  import opened Text
  import opened Registry

  /** The registry calls and the signals the workflow issues. */
  datatype Effect =
    | CreateSchema(subject: string, schema: string, schemaType: string, references: seq<Schema>)
    | GetSchemas
    | SchemaError(message: string)

  class Creator {
    var referenceIds: seq<int32>
    var subject: string
    var schema: string
    var schemaType: string

    constructor ()
      ensures referenceIds == [] && subject == "" && schema == "" && schemaType == ""
    {
      referenceIds := [];
      subject := "";
      schema := "";
      schemaType := "";
    }

    /** createSchema */
    method Create(subject: string, schema: string, schemaType: string, references: seq<int32>) returns (out: seq<Effect>)
      modifies this
      ensures |references| == 0 ==> out == [CreateSchema(subject, schema, schemaType, [])]
      ensures |references| == 0 ==> referenceIds == old(referenceIds) && this.subject == old(this.subject)
                                    && this.schema == old(this.schema) && this.schemaType == old(this.schemaType)
      ensures |references| > 0 ==> out == [GetSchemas]
      ensures |references| > 0 ==> referenceIds == references && this.subject == subject
                                   && this.schema == schema && this.schemaType == schemaType
    {
      if |references| == 0 {
        out := [CreateSchema(subject, schema, schemaType, [])];
      } else {
        referenceIds := references;
        this.subject := subject;
        this.schemaType := schemaType;
        this.schema := schema;
        out := [GetSchemas];
      }
    }

    /** onSchemaList: every requested id is looked up in order; the first
        id that is missing stops the workflow with an error, otherwise the
        schema is created with the found schemas as references. */
    method OnSchemaList(list: seq<Schema>) returns (out: seq<Effect>)
      ensures |out| == 1
      ensures out[0].CreateSchema? <==> forall j :: 0 <= j < |referenceIds| ==> FindById(list, referenceIds[j]).Some?
      ensures out[0].CreateSchema? ==>
                && out[0].subject == subject && out[0].schema == schema && out[0].schemaType == schemaType
                && |out[0].references| == |referenceIds|
                && forall j :: 0 <= j < |referenceIds| ==>
                     Some(out[0].references[j]) == FindById(list, referenceIds[j])
                     && out[0].references[j].schemaId == referenceIds[j]
      ensures !out[0].CreateSchema? ==>
                exists k :: 0 <= k < |referenceIds| && FindById(list, referenceIds[k]).None?
                            && (forall j :: 0 <= j < k ==> FindById(list, referenceIds[j]).Some?)
                            && out == [SchemaError("Missing schemaId " + IntToString(referenceIds[k]))]
    {
      var references: seq<Schema> := [];
      var i := 0;
      while i < |referenceIds|
        invariant 0 <= i <= |referenceIds|
        invariant |references| == i
        invariant forall j :: 0 <= j < i ==> Some(references[j]) == FindById(list, referenceIds[j])
        invariant forall j :: 0 <= j < i ==> references[j].schemaId == referenceIds[j]
      {
        var id := referenceIds[i];
        var found := FindById(list, id);
        if found.None? {
          return [SchemaError("Missing schemaId " + IntToString(id))];
        }
        references := references + [found.value];
        i := i + 1;
      }
      out := [CreateSchema(subject, schema, schemaType, references)];
    }
  }
}
