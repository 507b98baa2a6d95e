/** KafkaProtobufProducer::saveLocalSchema and loadLocalSchema, the local
    snapshot of the registry listing, with the file itself abstracted away:
    saving produces the JSON array that is written out, loading reads the
    parsed document (None when the file cannot be opened). */
module LocalSchema {

  import opened Json
  import opened Registry

  function SaveReference(r: Reference): Json
  {
    Obj(map["name" := Str(r.name), "subject" := Str(r.subject), "version" := Num(r.version)])
  }

  function SaveReferences(refs: seq<Reference>): (r: seq<Json>)
    ensures |r| == |refs|
    ensures forall i :: 0 <= i < |refs| ==> r[i] == SaveReference(refs[i])
  {
    if |refs| == 0 then [] else [SaveReference(refs[0])] + SaveReferences(refs[1..])
  }

  function SaveSchema(s: Schema): Json
  {
    Obj(map["schemaId" := Num(s.schemaId), "schema" := Str(s.schema), "schemaType" := Str(s.schemaType),
            "subject" := Str(s.subject), "version" := Num(s.version),
            "references" := Arr(SaveReferences(s.references))])
  }

  function SaveSchemas(schemas: seq<Schema>): (r: seq<Json>)
    ensures |r| == |schemas|
    ensures forall i :: 0 <= i < |schemas| ==> r[i] == SaveSchema(schemas[i])
  {
    if |schemas| == 0 then [] else [SaveSchema(schemas[0])] + SaveSchemas(schemas[1..])
  }

  /** The document saveLocalSchema writes. */
  function SaveLocalSchema(schemas: seq<Schema>): Json
  {
    Arr(SaveSchemas(schemas))
  }

  /** One reference entry; an entry that is not an object reads as empty
      names and version 0. */
  function LoadReference(v: Json): (r: Reference)
    ensures !v.Obj? ==> r == Reference("", "", 0)
    ensures v.Obj? && "version" in v.fields && v.fields["version"].Num? && -0x8000_0000 <= v.fields["version"].n < 0x8000_0000 ==>
              r.version == v.fields["version"].n
  {
    var r := AsObject(v);
    Reference(StrField(r, "name"), StrField(r, "subject"), IntField(r, "version"))
  }

  function LoadReferences(items: seq<Json>): (r: seq<Reference>)
    ensures |r| == |items|
    ensures forall i :: 0 <= i < |items| ==> r[i] == LoadReference(items[i])
  {
    if |items| == 0 then [] else [LoadReference(items[0])] + LoadReferences(items[1..])
  }

  /** One schema entry; an entry without a `references` array has no
      references, and one that is not an object reads as all empty. */
  function LoadSchema(v: Json): (r: Schema)
    ensures !v.Obj? ==> r == Schema(0, "", "", "", 0, [])
    ensures v.Obj? && ("references" !in v.fields || !v.fields["references"].Arr?) ==> r.references == []
    ensures v.Obj? && "references" in v.fields && v.fields["references"].Arr? ==>
              |r.references| == |v.fields["references"].items|
  {
    var s := AsObject(v);
    Schema(IntField(s, "schemaId"), StrField(s, "schema"), StrField(s, "schemaType"),
           StrField(s, "subject"), IntField(s, "version"),
           LoadReferences(AsArray(Field(s, "references"))))
  }

  function LoadSchemas(items: seq<Json>): (r: seq<Schema>)
    ensures |r| == |items|
    ensures forall i :: 0 <= i < |items| ==> r[i] == LoadSchema(items[i])
  {
    if |items| == 0 then [] else [LoadSchema(items[0])] + LoadSchemas(items[1..])
  }

  /** What loadLocalSchema returns: nothing when the file cannot be opened,
      otherwise one schema per element of the document's array (a document
      that is not an array reads as an empty one). */
  function LoadLocalSchema(file: Option<Json>): (r: seq<Schema>)
    ensures file.None? ==> r == []
    ensures file.Some? && !file.value.Arr? ==> r == []
    ensures file.Some? && file.value.Arr? ==>
              |r| == |file.value.items| && forall i :: 0 <= i < |r| ==> r[i] == LoadSchema(file.value.items[i])
  {
    if file.None? then [] else LoadSchemas(AsArray(file.value))
  }

  lemma ReferenceRoundTrip(r: Reference)
    ensures LoadReference(SaveReference(r)) == r
  {
    var o := AsObject(SaveReference(r));
    assert StrField(o, "name") == r.name && StrField(o, "subject") == r.subject;
    assert IntField(o, "version") == r.version;
  }

  lemma ReferencesRoundTrip(refs: seq<Reference>)
    ensures LoadReferences(SaveReferences(refs)) == refs
  {
    var back := LoadReferences(SaveReferences(refs));
    forall i | 0 <= i < |refs| ensures back[i] == refs[i] {
      ReferenceRoundTrip(refs[i]);
    }
  }

  /** One saved schema loads back as itself. */
  lemma SchemaRoundTrip(s: Schema)
    ensures LoadSchema(SaveSchema(s)) == s
  {
    var o := AsObject(SaveSchema(s));
    assert IntField(o, "schemaId") == s.schemaId && IntField(o, "version") == s.version;
    assert StrField(o, "schema") == s.schema && StrField(o, "schemaType") == s.schemaType;
    assert StrField(o, "subject") == s.subject;
    assert AsArray(Field(o, "references")) == SaveReferences(s.references);
    ReferencesRoundTrip(s.references);
  }

  /** saveLocalSchema and loadLocalSchema use the same field names, so
      loading what was saved gives back the same listing. */
  lemma LocalSchemaRoundTrip(schemas: seq<Schema>)
    ensures LoadLocalSchema(Some(SaveLocalSchema(schemas))) == schemas
  {
    var back := LoadLocalSchema(Some(SaveLocalSchema(schemas)));
    forall i | 0 <= i < |schemas| ensures back[i] == schemas[i] {
      SchemaRoundTrip(schemas[i]);
    }
  }
}
