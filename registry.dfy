/** The schema-registry records (SchemaRegistry::Reference and
    SchemaRegistry::Schema) and how one element of the `GET schemas` reply is
    read into them; both revisions of the client read the listing the same
    way. */
module Registry {

  import opened Json

  datatype Reference = Reference(name: string, subject: string, version: int32)

  datatype Schema = Schema(
    schemaId: int32,
    schema: string,
    schemaType: string,
    subject: string,
    version: int32,
    references: seq<Reference>)

  function ReferenceFromJson(v: Json): Reference
  {
    var o := AsObject(v);
    Reference(StrField(o, "name"), StrField(o, "subject"), IntField(o, "version"))
  }

  function ReferencesFromJson(items: seq<Json>): (r: seq<Reference>)
    ensures |r| == |items|
    ensures forall i :: 0 <= i < |items| ==> r[i] == ReferenceFromJson(items[i])
  {
    if |items| == 0 then [] else [ReferenceFromJson(items[0])] + ReferencesFromJson(items[1..])
  }

  /** One element of the listing: `id` becomes the schema id, and the
      references are read only when `references` is present and an array. */
  function SchemaFromJson(v: Json): (s: Schema)
  {
    var o := AsObject(v);
    var refs := if "references" in o && o["references"].Arr? then ReferencesFromJson(o["references"].items) else [];
    Schema(IntField(o, "id"), StrField(o, "schema"), StrField(o, "schemaType"),
           StrField(o, "subject"), IntField(o, "version"), refs)
  }

  /** References are copied exactly when the element carries a references
      array; otherwise the schema has none. */
  lemma SchemaReferencesCopied(v: Json, refs: seq<Json>)
    requires v.Obj? && "references" in v.fields && v.fields["references"] == Arr(refs)
    ensures |SchemaFromJson(v).references| == |refs|
    ensures forall i :: 0 <= i < |refs| ==>
      SchemaFromJson(v).references[i].subject == StrField(AsObject(refs[i]), "subject") &&
      SchemaFromJson(v).references[i].version == IntField(AsObject(refs[i]), "version")
  {
  }

  lemma SchemaWithoutReferenceArray(v: Json)
    requires !(v.Obj? && "references" in v.fields && v.fields["references"].Arr?)
    ensures SchemaFromJson(v).references == []
  {
  }

  /** The first entry of a listing with the given schema id: SchemaCreate::find,
      and the search loops of SchemaDelete and SchemaUtils. */
  function FindById(list: seq<Schema>, id: int32): (r: Option<Schema>)
    ensures r.None? <==> forall i :: 0 <= i < |list| ==> list[i].schemaId != id
    ensures r.Some? ==> exists k :: 0 <= k < |list| && list[k] == r.value && list[k].schemaId == id
                                    && forall j :: 0 <= j < k ==> list[j].schemaId != id
  {
    if |list| == 0 then None
    else if list[0].schemaId == id then Some(list[0])
    else
      var tail := list[1..];
      var r := FindById(tail, id);
      assert forall j :: 0 <= j < |tail| ==> tail[j] == list[j + 1];
      r
  }
}
